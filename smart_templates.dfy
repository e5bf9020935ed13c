/**
 * Context-specific template generation (`SmartTemplateManager`): a header
 * describing the project, one extra template per recognised suggestion
 * identifier, and the base templates re-rendered under that header.
 */
module SmartTemplates {
  import opened Wrappers
  import opened Text
  import opened Project
  import opened Templates

  /** The dependencies worth naming in the header, per ecosystem. */
  const RustKeyDependencies: seq<string> :=
    ["tokio", "async-std", "serde", "clap", "wasm-bindgen", "web-sys", "js-sys"]
  const JsKeyDependencies: seq<string> :=
    ["react", "vue", "express", "fastify", "mongoose", "prisma", "jest", "typescript"]

  /** At most this many key dependencies and scripts are listed. */
  const MaxKeyDependencies := 5
  const MaxScripts := 3

  /** The suggestion identifiers that have a context-specific template. */
  const KnownCommands: seq<string> := [
    "run-specific-test", "async-refactor", "serialization-helper", "wasm-size-analysis",
    "js-binding-generator", "webpack-wasm-optimization", "test-coverage-analysis",
    "react-component-generator", "vue-component-generator", "express-route-generator",
    "database-model-generator", "documentation-generator", "docker-optimization",
    "ci-cd-enhancement"]

  const RunSpecificTest := "Run a specific test file or test function in this Rust project. Please specify the test to run:"
  const AsyncRefactor := "Refactor this synchronous Rust code to use async/await patterns, considering the tokio/async-std dependencies:"
  const SerializationHelper := "Add Serde serialization/deserialization support to this Rust struct or enum:"
  const WasmSizeAnalysis := "Analyze and optimize this Rust WASM code for binary size reduction:"
  const JsBindingGenerator := "Generate JavaScript bindings for this Rust WASM function using wasm-bindgen:"
  const WebpackWasmOptimization := "Optimize webpack configuration for this Rust WASM project:"
  const TestCoverageAnalysis := "Analyze test coverage for this JavaScript/TypeScript project and suggest improvements:"
  const ReactComponentGenerator := "Generate a React component with TypeScript support for this functionality:"
  const VueComponentGenerator := "Generate a Vue.js component with TypeScript support for this functionality:"
  const ExpressRouteGenerator := "Create Express.js route handlers with proper error handling and validation:"
  const DatabaseModelGenerator := "Generate database models and schemas for this Node.js application:"
  const DocumentationGenerator := "Generate comprehensive documentation for this project including README, API docs, and code comments:"
  const DockerOptimization := "Optimize the Dockerfile and Docker configuration for this project:"
  const CiCdEnhancement := "Improve CI/CD pipeline configuration for this project:"

  // ---------------------------------------------------------------------
  // Important dependencies
  // ---------------------------------------------------------------------

  /** `is_important_dependency`: the Rust list for both Rust types, the JS list for the other three. */
  predicate IsImportantDependency(depName: string, projectType: ProjectType) {
    match projectType
    case RustNormal | RustWasm => depName in RustKeyDependencies
    case JavaScript | TypeScript | NodeJs => depName in JsKeyDependencies
  }

  /** Importance depends on the ecosystem only, not on the variant. */
  lemma ImportanceByEcosystem(depName: string, s: ProjectType, t: ProjectType)
    requires s.IsRust() == t.IsRust()
    ensures IsImportantDependency(depName, s) == IsImportantDependency(depName, t)
  {
  }

  /** No dependency is important for both ecosystems: "react" is not for Rust, "serde" not for JS. */
  lemma ImportanceExclusive(depName: string, s: ProjectType, t: ProjectType)
    requires s.IsRust() && !t.IsRust()
    ensures !(IsImportantDependency(depName, s) && IsImportantDependency(depName, t))
  {
    if depName in RustKeyDependencies {
      var i :| 0 <= i < |RustKeyDependencies| && RustKeyDependencies[i] == depName;
      assert depName !in JsKeyDependencies;
    }
  }

  // ---------------------------------------------------------------------
  // The context header
  // ---------------------------------------------------------------------

  /** The keys of a map, in its iteration order. */
  function EntryKeys(entries: seq<(string, string)>): (keys: seq<string>)
    ensures |keys| == |entries|
    ensures forall i :: 0 <= i < |entries| ==> keys[i] == entries[i].0
  {
    if entries == [] then [] else [entries[0].0] + EntryKeys(entries[1..])
  }

  /** `.filter(|k| is_important_dependency(k, t))`. */
  function ImportantNames(names: seq<string>, t: ProjectType): seq<string>
    decreases |names|
  {
    if names == [] then []
    else (if IsImportantDependency(names[0], t) then [names[0]] else []) + ImportantNames(names[1..], t)
  }

  /** `.take(n)`. */
  function Take(names: seq<string>, n: nat): (r: seq<string>)
    ensures r <= names
    ensures |r| == if |names| <= n then |names| else n
  {
    if |names| <= n then names else names[..n]
  }

  /** The names on the "Key dependencies" line. */
  function KeyDependencies(structure: ProjectStructure, t: ProjectType): seq<string> {
    Take(ImportantNames(EntryKeys(structure.dependencies), t), MaxKeyDependencies)
  }

  /** The names on the "Available scripts" line. */
  function ScriptNames(structure: ProjectStructure): seq<string> {
    Take(EntryKeys(structure.scripts), MaxScripts)
  }

  const FeaturesLabel := "\nFeatures: "
  const KeyDependenciesLabel := "\nKey dependencies: "
  const ScriptsLabel := "\nAvailable scripts: "
  const ListSeparator := ", "

  function FeaturesLine(features: seq<string>): string {
    if features != [] then FeaturesLabel + Join(features, ListSeparator) else ""
  }

  function FilesLine(structure: ProjectStructure): string {
    "\nFiles: " + Decimal(|structure.sourceFiles|) + " source, "
    + Decimal(|structure.testFiles|) + " tests, "
    + Decimal(|structure.configFiles|) + " configs"
  }

  function KeyDependenciesLine(structure: ProjectStructure, t: ProjectType): string {
    if structure.dependencies != [] then
      var keyDeps := KeyDependencies(structure, t);
      if keyDeps != [] then KeyDependenciesLabel + Join(keyDeps, ListSeparator) else ""
    else ""
  }

  function ScriptsLine(structure: ProjectStructure): string {
    if structure.scripts != [] then ScriptsLabel + Join(ScriptNames(structure), ListSeparator) else ""
  }

  /** What `build_context_string` computes. */
  function ContextString(context: ProjectContext): string {
    ProjectHeader(context.info)
    + FeaturesLine(context.info.features)
    + FilesLine(context.structure)
    + KeyDependenciesLine(context.structure, context.info.projectType)
    + ScriptsLine(context.structure)
  }

  /** `build_context_string`, growing the header line by line. */
  method BuildContextString(context: ProjectContext) returns (ctx: string)
    ensures ctx == ContextString(context)
  {
    var info := context.info;
    var structure := context.structure;
    ctx := ProjectHeader(info);
    if info.features != [] {
      ctx := ctx + (FeaturesLabel + Join(info.features, ListSeparator));
    }
    assert ctx == ProjectHeader(info) + FeaturesLine(info.features);
    ctx := ctx + FilesLine(structure);
    ghost var upToFiles := ctx;
    if structure.dependencies != [] {
      var keyDeps := KeyDependencies(structure, info.projectType);
      if keyDeps != [] {
        ctx := ctx + (KeyDependenciesLabel + Join(keyDeps, ListSeparator));
      }
    }
    assert ctx == upToFiles + KeyDependenciesLine(structure, info.projectType);
    ghost var upToDeps := ctx;
    if structure.scripts != [] {
      ctx := ctx + (ScriptsLabel + Join(ScriptNames(structure), ListSeparator));
    }
    assert ctx == upToDeps + ScriptsLine(structure);
  }

  /** The filter keeps exactly the important names, in their order. */
  lemma {:induction false} ImportantNamesMembers(names: seq<string>, t: ProjectType)
    ensures |ImportantNames(names, t)| <= |names|
    ensures forall x :: x in ImportantNames(names, t) <==> x in names && IsImportantDependency(x, t)
    decreases |names|
  {
    if names != [] {
      ImportantNamesMembers(names[1..], t);
      assert names == [names[0]] + names[1..];
    }
  }

  /**
   * At most five key dependencies, each one an important dependency of the
   * project's ecosystem; none exactly when no dependency qualifies; and all
   * of them when no more than five qualify.
   */
  lemma KeyDependenciesBounds(structure: ProjectStructure, t: ProjectType)
    ensures var keyDeps := KeyDependencies(structure, t);
      && |keyDeps| <= 5
      && (forall x :: x in keyDeps ==> IsImportantDependency(x, t) && x in EntryKeys(structure.dependencies))
      && (keyDeps == [] <==> forall x :: x in EntryKeys(structure.dependencies) ==> !IsImportantDependency(x, t))
      && (|ImportantNames(EntryKeys(structure.dependencies), t)| <= 5 ==>
            forall x :: x in EntryKeys(structure.dependencies) && IsImportantDependency(x, t) ==> x in keyDeps)
  {
    var keys := EntryKeys(structure.dependencies);
    var all := ImportantNames(keys, t);
    ImportantNamesMembers(keys, t);
    var keyDeps := KeyDependencies(structure, t);
    forall x | x in keyDeps
      ensures x in all
    {
      var i :| 0 <= i < |keyDeps| && keyDeps[i] == x;
      assert all[i] == x;
    }
    if all == [] {
      forall x | x in keys
        ensures !IsImportantDependency(x, t)
      {
        assert x !in all;
      }
    } else {
      assert keyDeps[0] == all[0];
      assert all[0] in all;
    }
  }

  /** At most three scripts, the first ones in iteration order; none only when there are none. */
  lemma ScriptNamesBounds(structure: ProjectStructure)
    ensures var names := ScriptNames(structure);
      && |names| <= 3
      && names <= EntryKeys(structure.scripts)
      && (names == [] <==> structure.scripts == [])
  {
  }

  /** The first part, and the first three parts, of a five-part string are prefixes of it. */
  lemma PrefixesOfFiveParts(a: string, b: string, c: string, d: string, e: string)
    ensures IsPrefix(a, a + b + c + d + e)
    ensures IsPrefix(a + b + c, a + b + c + d + e)
  {
    assert (a + b + c + d + e)[..|a|] == a;
    assert (a + b + c + d + e)[..|a + b + c|] == a + b + c;
  }

  /**
   * The header starts with `Project: NAME (Type)`; a Features line follows
   * only when there are features, and the Files line comes next.
   */
  lemma ContextStringLayout(context: ProjectContext)
    ensures var info := context.info;
      var header := ProjectHeader(info);
      var files := FilesLine(context.structure);
      && IsPrefix(header, ContextString(context))
      && (info.features == [] ==> IsPrefix(header + files, ContextString(context)))
      && (info.features != [] ==>
            IsPrefix(header + (FeaturesLabel + Join(info.features, ListSeparator)) + files, ContextString(context)))
  {
    var info := context.info;
    var structure := context.structure;
    PrefixesOfFiveParts(ProjectHeader(info), FeaturesLine(info.features), FilesLine(structure),
      KeyDependenciesLine(structure, info.projectType), ScriptsLine(structure));
    if info.features == [] {
      assert ProjectHeader(info) + FeaturesLine(info.features) == ProjectHeader(info);
    }
  }

  /**
   * The Key dependencies line is there exactly when some dependency
   * qualifies, the Available scripts line exactly when there are scripts.
   */
  lemma OptionalLines(structure: ProjectStructure, t: ProjectType)
    ensures KeyDependenciesLine(structure, t) != "" <==>
      exists x :: x in EntryKeys(structure.dependencies) && IsImportantDependency(x, t)
    ensures ScriptsLine(structure) != "" <==> structure.scripts != []
  {
    KeyDependenciesBounds(structure, t);
    if structure.dependencies == [] {
      assert EntryKeys(structure.dependencies) == [];
    }
  }

  /** The Files line carries the three counts, and they read back as the list lengths. */
  lemma FilesLineCounts(structure: ProjectStructure)
    ensures var sources := Decimal(|structure.sourceFiles|);
      var tests := Decimal(|structure.testFiles|);
      var configs := Decimal(|structure.configFiles|);
      && FilesLine(structure) == "\nFiles: " + sources + " source, " + tests + " tests, " + configs + " configs"
      && DecimalValue(sources) == |structure.sourceFiles|
      && DecimalValue(tests) == |structure.testFiles|
      && DecimalValue(configs) == |structure.configFiles|
  {
    DecimalRoundTrip(|structure.sourceFiles|);
    DecimalRoundTrip(|structure.testFiles|);
    DecimalRoundTrip(|structure.configFiles|);
  }

  // ---------------------------------------------------------------------
  // Context-specific templates
  // ---------------------------------------------------------------------

  /**
   * `create_template_for_command`: a template named after the command, its
   * content the header, a blank line and the command's prompt, for the
   * fourteen known commands; nothing for any other.
   */
  function CreateTemplateForCommand(command: string, context: ProjectContext): (r: Option<Template>)
    ensures r.Some? <==> command in KnownCommands
    ensures r.Some? ==> r.value.0 == command && IsPrefix(ContextString(context) + "\n\n", r.value.1)
  {
    var baseContext := ContextString(context);
    match command
    case "run-specific-test" => Some((command, baseContext + "\n\n" + RunSpecificTest))
    case "async-refactor" => Some((command, baseContext + "\n\n" + AsyncRefactor))
    case "serialization-helper" => Some((command, baseContext + "\n\n" + SerializationHelper))
    case "wasm-size-analysis" => Some((command, baseContext + "\n\n" + WasmSizeAnalysis))
    case "js-binding-generator" => Some((command, baseContext + "\n\n" + JsBindingGenerator))
    case "webpack-wasm-optimization" => Some((command, baseContext + "\n\n" + WebpackWasmOptimization))
    case "test-coverage-analysis" => Some((command, baseContext + "\n\n" + TestCoverageAnalysis))
    case "react-component-generator" => Some((command, baseContext + "\n\n" + ReactComponentGenerator))
    case "vue-component-generator" => Some((command, baseContext + "\n\n" + VueComponentGenerator))
    case "express-route-generator" => Some((command, baseContext + "\n\n" + ExpressRouteGenerator))
    case "database-model-generator" => Some((command, baseContext + "\n\n" + DatabaseModelGenerator))
    case "documentation-generator" => Some((command, baseContext + "\n\n" + DocumentationGenerator))
    case "docker-optimization" => Some((command, baseContext + "\n\n" + DockerOptimization))
    case "ci-cd-enhancement" => Some((command, baseContext + "\n\n" + CiCdEnhancement))
    case _ => None
  }

  /** The suggested commands that have a template, in their order. */
  function RecognisedCommands(commands: seq<string>): seq<string>
    decreases |commands|
  {
    if commands == [] then []
    else
      var last := commands[|commands| - 1];
      RecognisedCommands(commands[..|commands| - 1]) + (if last in KnownCommands then [last] else [])
  }

  /** What `generate_context_specific_templates` computes. */
  function ContextTemplates(commands: seq<string>, context: ProjectContext): seq<Template>
    decreases |commands|
  {
    if commands == [] then []
    else
      var rest := ContextTemplates(commands[..|commands| - 1], context);
      match CreateTemplateForCommand(commands[|commands| - 1], context)
      case Some(t) => rest + [t]
      case None => rest
  }

  /**
   * One template per recognised command, in the order of the suggestions,
   * named after it and headed by the context string.
   */
  lemma {:induction false} ContextTemplatesFollowCommands(commands: seq<string>, context: ProjectContext)
    ensures var ts := ContextTemplates(commands, context);
      var known := RecognisedCommands(commands);
      && |ts| == |known| <= |commands|
      && (forall i :: 0 <= i < |ts| ==> ts[i].0 == known[i])
      && (forall i :: 0 <= i < |ts| ==> IsPrefix(ContextString(context) + "\n\n", ts[i].1))
    decreases |commands|
  {
    if commands != [] {
      ContextTemplatesFollowCommands(commands[..|commands| - 1], context);
    }
  }

  /** The recognised commands are exactly the suggested ones that are known. */
  lemma {:induction false} RecognisedCommandsMembers(commands: seq<string>)
    ensures forall x :: x in RecognisedCommands(commands) <==> x in commands && x in KnownCommands
    decreases |commands|
  {
    if commands != [] {
      var init := commands[..|commands| - 1];
      RecognisedCommandsMembers(init);
      assert commands == init + [commands[|commands| - 1]];
    }
  }

  /** Distinct suggestions give distinct recognised commands. */
  lemma {:induction false} RecognisedCommandsNoDuplicates(commands: seq<string>)
    requires NoDuplicates(commands)
    ensures NoDuplicates(RecognisedCommands(commands))
    decreases |commands|
  {
    if commands != [] {
      var init := commands[..|commands| - 1];
      var last := commands[|commands| - 1];
      assert NoDuplicates(init);
      RecognisedCommandsNoDuplicates(init);
      RecognisedCommandsMembers(init);
      assert last !in init;
    }
  }

  /** No base template is named like a suggestion identifier. */
  lemma BaseNamesAreNotCommands(info: ProjectInfo)
    ensures var base := GetTemplatesForProject(info);
      forall i :: 0 <= i < |base| ==> base[i].0 !in KnownCommands
  {
  }

  /** `generate_context_specific_templates`: the filter-map loop over the suggestions. */
  method GenerateContextSpecificTemplates(context: ProjectContext) returns (templates: seq<Template>)
    ensures templates == ContextTemplates(context.suggestedCommands, context)
    ensures |templates| == |RecognisedCommands(context.suggestedCommands)| <= |context.suggestedCommands|
    ensures forall i :: 0 <= i < |templates| ==> templates[i].0 == RecognisedCommands(context.suggestedCommands)[i]
    ensures forall i :: 0 <= i < |templates| ==> IsPrefix(ContextString(context) + "\n\n", templates[i].1)
  {
    var commands := context.suggestedCommands;
    templates := [];
    for i := 0 to |commands|
      invariant templates == ContextTemplates(commands[..i], context)
    {
      assert commands[..i + 1][..i] == commands[..i];
      var t := CreateTemplateForCommand(commands[i], context);
      if t.Some? {
        templates := templates + [t.value];
      }
    }
    assert commands[..|commands|] == commands;
    ContextTemplatesFollowCommands(commands, context);
  }

  /**
   * The re-rendered base templates and the context-specific ones never share
   * a name, so distinct suggestions give distinct names throughout.
   */
  lemma EnhancedNamesDistinct(context: ProjectContext, rendered: seq<Template>, extra: seq<Template>)
    requires NoDuplicates(context.suggestedCommands)
    requires var base := GetTemplatesForProject(context.info);
      |rendered| == |base| && forall i :: 0 <= i < |base| ==> rendered[i].0 == base[i].0
    requires extra == ContextTemplates(context.suggestedCommands, context)
    ensures DistinctNames(rendered + extra)
  {
    var base := GetTemplatesForProject(context.info);
    var known := RecognisedCommands(context.suggestedCommands);
    ContextTemplatesFollowCommands(context.suggestedCommands, context);
    RecognisedCommandsNoDuplicates(context.suggestedCommands);
    RecognisedCommandsMembers(context.suggestedCommands);
    BaseNamesAreNotCommands(context.info);
    var all := rendered + extra;
    forall i, j | 0 <= i < j < |all|
      ensures all[i].0 != all[j].0
    {
      if j >= |rendered| {
        assert all[j].0 == known[j - |rendered|];
        assert known[j - |rendered|] in known;
        if i < |rendered| {
          assert all[i].0 == base[i].0;
        }
      } else {
        assert all[i].0 == base[i].0 && all[j].0 == base[j].0;
      }
    }
  }

  /**
   * `create_enhanced_init_templates`: the base templates of the project's
   * type first, same names, each content the header, a blank line and the
   * base prompt; then the context-specific templates.
   */
  method CreateEnhancedInitTemplates(context: ProjectContext) returns (templates: seq<Template>)
    ensures var base := GetTemplatesForProject(context.info);
      && |templates| == |base| + |ContextTemplates(context.suggestedCommands, context)|
      && (forall i :: 0 <= i < |base| ==>
            templates[i] == (base[i].0, ContextString(context) + "\n\n" + base[i].1))
      && templates[|base|..] == ContextTemplates(context.suggestedCommands, context)
    ensures NoDuplicates(context.suggestedCommands) ==> DistinctNames(templates)
  {
    var base := GetTemplatesForProject(context.info);
    templates := [];
    for i := 0 to |base|
      invariant |templates| == i
      invariant forall j :: 0 <= j < i ==> templates[j] == (base[j].0, ContextString(context) + "\n\n" + base[j].1)
    {
      var ctx := BuildContextString(context);
      templates := templates + [(base[i].0, ctx + "\n\n" + base[i].1)];
    }
    var extra := GenerateContextSpecificTemplates(context);
    templates := templates + extra;
    if NoDuplicates(context.suggestedCommands) {
      EnhancedNamesDistinct(context, templates[..|base|], extra);
      assert templates == templates[..|base|] + extra;
    }
  }
}

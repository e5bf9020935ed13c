/**
 * Project classification (`ProjectDetector`): decides from the manifests
 * at a directory's root which of five ecosystems the project belongs to,
 * and collects an ordered list of feature tags.
 *
 * The filesystem is abstracted: a directory is the set of names of the
 * files at its root (for `exists`) and, per manifest, the outcome of
 * reading and parsing it (`Some(doc)` when both succeeded).
 */
module Project {
  import opened Wrappers
  import opened Text
  import opened Manifest

  datatype ProjectType = RustNormal | RustWasm | JavaScript | TypeScript | NodeJs
  {
    predicate IsRust() {
      RustNormal? || RustWasm?
    }
  }

  /** The variant's name as `format!("{:?}", project_type)` writes it. */
  function TypeName(t: ProjectType): string {
    match t
    case RustNormal => "RustNormal"
    case RustWasm => "RustWasm"
    case JavaScript => "JavaScript"
    case TypeScript => "TypeScript"
    case NodeJs => "NodeJs"
  }

  /** Distinct variants print differently. */
  lemma TypeNameInjective(s: ProjectType, t: ProjectType)
    requires TypeName(s) == TypeName(t)
    ensures s == t
  {
  }

  datatype ProjectInfo = ProjectInfo(
    projectType: ProjectType,
    name: string,
    path: string,
    features: seq<string>)

  /** A directory as detection sees it. */
  datatype ProjectDir = ProjectDir(
    path: string,
    rootFiles: set<string>,
    cargoToml: Option<Value>,
    packageJson: Option<Value>)

  /**
   * The structural profile and the suggestions that the context builder
   * produces; they are inputs here. A `HashMap` field is the sequence of
   * its entries in the map's iteration order.
   */
  datatype ProjectStructure = ProjectStructure(
    sourceFiles: seq<string>,
    testFiles: seq<string>,
    configFiles: seq<string>,
    dependencies: seq<(string, string)>,
    scripts: seq<(string, string)>)

  datatype ProjectContext = ProjectContext(
    info: ProjectInfo,
    structure: ProjectStructure,
    suggestedCommands: seq<string>)

  const CargoManifest := "Cargo.toml"
  const PackageManifest := "package.json"
  const WasmPackMarker := "wasm-pack.json"
  const TypeScriptConfigs: seq<string> := ["tsconfig.json", "tsconfig.build.json", "typescript.json"]
  const NodeDependencies: seq<string> := ["express", "fastify", "koa", "@types/node"]
  const Unknown := "unknown"

  /** The order in which Rust and JS detection push their feature tags. */
  const RustFeatureOrder: seq<string> := ["wasm", "dependencies", "dev-dependencies"]
  const JsFeatureOrder: seq<string> := ["typescript", "nodejs", "dependencies", "devDependencies", "scripts"]

  // ---------------------------------------------------------------------
  // Specification of detection
  // ---------------------------------------------------------------------

  /** Existence check, then read and parse: absent if any of the three fails. */
  function ReadManifest(rootFiles: set<string>, fileName: string, parsed: Option<Value>): Option<Value> {
    if fileName in rootFiles then parsed else None
  }

  /** `detect_project`: Rust detection first; JS detection only if it yields nothing. */
  function DetectProject(dir: ProjectDir): (r: Option<ProjectInfo>)
    ensures r.Some? ==> r.value.path == dir.path
    ensures (r.Some? && r.value.projectType.IsRust()) <==> ReadManifest(dir.rootFiles, CargoManifest, dir.cargoToml).Some?
  {
    match RustDetection(dir)
    case Some(cargoInfo) => Some(cargoInfo)
    case None => JsDetection(dir)
  }

  /** The one-tag list `[tag]` when `flag` holds, the empty list otherwise. */
  function Optional(flag: bool, tag: string): seq<string> {
    if flag then [tag] else []
  }

  /** The tag `key` when the document has that key, whatever its value. */
  function PresenceTag(doc: Value, key: string): seq<string> {
    Optional(Get(doc, key).Some?, key)
  }

  /** What `detect_rust_project` computes. */
  function RustDetection(dir: ProjectDir): (r: Option<ProjectInfo>)
    ensures r.Some? <==> ReadManifest(dir.rootFiles, CargoManifest, dir.cargoToml).Some?
    ensures r.Some? ==> r.value.projectType.IsRust() && r.value.path == dir.path
    ensures r.Some? ==> (r.value.projectType == RustWasm <==> IsWasmProject(dir.cargoToml.value, dir.rootFiles))
  {
    match ReadManifest(dir.rootFiles, CargoManifest, dir.cargoToml)
    case None => None
    case Some(doc) =>
      var wasm := IsWasmProject(doc, dir.rootFiles);
      Some(ProjectInfo(
        if wasm then RustWasm else RustNormal,
        StrOr(PackageName(doc), Unknown),
        dir.path,
        RustFeatures(doc, wasm)))
  }

  function RustFeatures(doc: Value, wasm: bool): seq<string> {
    Optional(wasm, "wasm")
    + PresenceTag(doc, "dependencies")
    + PresenceTag(doc, "dev-dependencies")
  }

  function PackageName(doc: Value): Option<Value> {
    AndGet(Get(doc, "package"), "name")
  }

  function WasmPackMetadata(doc: Value): Option<Value> {
    AndGet(AndGet(Get(doc, "package"), "metadata"), "wasm-pack")
  }

  function WasmBindgenDependency(doc: Value): Option<Value> {
    AndGet(Get(doc, "dependencies"), "wasm-bindgen")
  }

  function CrateType(doc: Value): Option<Value> {
    AndGet(Get(doc, "lib"), "crate-type")
  }

  function EnginesNode(pkg: Value): Option<Value> {
    AndGet(Get(pkg, "engines"), "node")
  }

  /**
   * `is_wasm_project`: a short-circuiting chain. A `lib.crate-type` array
   * settles the answer by itself; only without one does the marker file
   * `wasm-pack.json` matter.
   */
  function IsWasmProject(doc: Value, rootFiles: set<string>): (wasm: bool)
    ensures WasmPackMetadata(doc).Some? || WasmBindgenDependency(doc).Some? ==> wasm
    ensures wasm ==>
      || WasmPackMetadata(doc).Some?
      || WasmBindgenDependency(doc).Some?
      || (CrateType(doc).Some? && CrateType(doc).value.Arr? && Str("cdylib") in CrateType(doc).value.items)
      || WasmPackMarker in rootFiles
  {
    if WasmPackMetadata(doc).Some? then true
    else if WasmBindgenDependency(doc).Some? then true
    else
      match CrateType(doc)
      case Some(Arr(types)) => Str("cdylib") in types
      case _ => WasmPackMarker in rootFiles
  }

  /** `has_typescript_config`: the three names are tried in turn. */
  function HasTypeScriptConfig(rootFiles: set<string>): (ts: bool)
    ensures ts <==> exists c :: c in TypeScriptConfigs && c in rootFiles
  {
    TypeScriptConfigs[0] in rootFiles || TypeScriptConfigs[1] in rootFiles || TypeScriptConfigs[2] in rootFiles
  }

  /** Some name of the fixed server-framework list is a key of `dependencies`. */
  predicate HasNodeDependency(pkg: Value) {
    match Get(pkg, "dependencies")
    case None => false
    case Some(deps) => exists d :: d in NodeDependencies && Get(deps, d).Some?
  }

  /**
   * What `is_node_project` decides: a string `main` settles it by its
   * extension alone; otherwise a server dependency or `engines.node`.
   */
  predicate IsNodeManifest(pkg: Value) {
    match Get(pkg, "main")
    case Some(Str(main)) => EndsWith(main, ".js") || EndsWith(main, ".mjs")
    case _ => HasNodeDependency(pkg) || EnginesNode(pkg).Some?
  }

  function JsType(rootFiles: set<string>, pkg: Value): ProjectType {
    if HasTypeScriptConfig(rootFiles) then TypeScript
    else if IsNodeManifest(pkg) then NodeJs
    else JavaScript
  }

  function JsFeatures(t: ProjectType, pkg: Value): seq<string> {
    (match t
     case TypeScript => ["typescript"]
     case NodeJs => ["nodejs"]
     case _ => [])
    + PresenceTag(pkg, "dependencies")
    + PresenceTag(pkg, "devDependencies")
    + PresenceTag(pkg, "scripts")
  }

  /** What `detect_js_project` computes. */
  function JsDetection(dir: ProjectDir): (r: Option<ProjectInfo>)
    ensures r.Some? <==> ReadManifest(dir.rootFiles, PackageManifest, dir.packageJson).Some?
    ensures r.Some? ==> !r.value.projectType.IsRust() && r.value.path == dir.path
    ensures r.Some? ==> (r.value.projectType == NodeJs <==>
      !HasTypeScriptConfig(dir.rootFiles) && IsNodeManifest(dir.packageJson.value))
    ensures r.Some? ==> (r.value.projectType == JavaScript <==>
      !HasTypeScriptConfig(dir.rootFiles) && !IsNodeManifest(dir.packageJson.value))
  {
    match ReadManifest(dir.rootFiles, PackageManifest, dir.packageJson)
    case None => None
    case Some(pkg) =>
      var t := JsType(dir.rootFiles, pkg);
      Some(ProjectInfo(t, StrOr(Get(pkg, "name"), Unknown), dir.path, JsFeatures(t, pkg)))
  }

  // ---------------------------------------------------------------------
  // The detectors as the source writes them: early returns and pushes
  // ---------------------------------------------------------------------

  method DetectRustProject(dir: ProjectDir) returns (r: Option<ProjectInfo>)
    ensures r == RustDetection(dir)
  {
    if CargoManifest !in dir.rootFiles {
      return None;
    }
    if dir.cargoToml.None? {
      // the file could not be read, or did not parse
      return None;
    }
    var doc := dir.cargoToml.value;
    var name := StrOr(PackageName(doc), Unknown);
    var features: seq<string> := [];
    var projectType: ProjectType;
    if IsWasmProject(doc, dir.rootFiles) {
      features := features + ["wasm"];
      projectType := RustWasm;
    } else {
      projectType := RustNormal;
    }
    ghost var wasm := IsWasmProject(doc, dir.rootFiles);
    assert features == Optional(wasm, "wasm");
    if Get(doc, "dependencies").Some? {
      features := features + ["dependencies"];
    }
    assert features == Optional(wasm, "wasm") + PresenceTag(doc, "dependencies");
    if Get(doc, "dev-dependencies").Some? {
      features := features + ["dev-dependencies"];
    }
    assert features == RustFeatures(doc, wasm);
    r := Some(ProjectInfo(projectType, name, dir.path, features));
  }

  method DetectJsProject(dir: ProjectDir) returns (r: Option<ProjectInfo>)
    ensures r == JsDetection(dir)
  {
    if PackageManifest !in dir.rootFiles {
      return None;
    }
    if dir.packageJson.None? {
      return None;
    }
    var pkg := dir.packageJson.value;
    var name := StrOr(Get(pkg, "name"), Unknown);
    var features: seq<string> := [];
    var projectType: ProjectType;
    if HasTypeScriptConfig(dir.rootFiles) {
      features := features + ["typescript"];
      projectType := TypeScript;
    } else {
      var node := IsNodeProject(pkg);
      if node {
        features := features + ["nodejs"];
        projectType := NodeJs;
      } else {
        projectType := JavaScript;
      }
    }
    assert projectType == JsType(dir.rootFiles, pkg);
    ghost var typeTag := JsFeatures(projectType, pkg)[..|features|];
    assert features == typeTag;
    if Get(pkg, "dependencies").Some? {
      features := features + ["dependencies"];
    }
    assert features == typeTag + PresenceTag(pkg, "dependencies");
    if Get(pkg, "devDependencies").Some? {
      features := features + ["devDependencies"];
    }
    assert features == typeTag + PresenceTag(pkg, "dependencies") + PresenceTag(pkg, "devDependencies");
    if Get(pkg, "scripts").Some? {
      features := features + ["scripts"];
    }
    assert features == JsFeatures(projectType, pkg);
    r := Some(ProjectInfo(projectType, name, dir.path, features));
  }

  /** `is_node_project`, with its early-returning scan of the server-framework list. */
  method IsNodeProject(pkg: Value) returns (node: bool)
    ensures node == IsNodeManifest(pkg)
    ensures (Get(pkg, "main").Some? && Get(pkg, "main").value.Str?) ==>
      node == (EndsWith(Get(pkg, "main").value.s, ".js") || EndsWith(Get(pkg, "main").value.s, ".mjs"))
  {
    var main := Get(pkg, "main");
    if main.Some? && main.value.Str? {
      return EndsWith(main.value.s, ".js") || EndsWith(main.value.s, ".mjs");
    }
    var deps := Get(pkg, "dependencies");
    if deps.Some? {
      var i := 0;
      while i < |NodeDependencies|
        invariant 0 <= i <= |NodeDependencies|
        invariant forall j :: 0 <= j < i ==> Get(deps.value, NodeDependencies[j]).None?
      {
        if Get(deps.value, NodeDependencies[i]).Some? {
          return true;
        }
        i := i + 1;
      }
    }
    return EnginesNode(pkg).Some?;
  }

  // ---------------------------------------------------------------------
  // Properties
  // ---------------------------------------------------------------------

  /** Position of `x` in `s`, or `|s|` when it does not occur. */
  function IndexOf(s: seq<string>, x: string): (k: nat)
    ensures k <= |s|
    ensures k < |s| ==> s[k] == x
    ensures k == |s| <==> x !in s
  {
    if s == [] then 0 else if s[0] == x then 0 else 1 + IndexOf(s[1..], x)
  }

  predicate NoDuplicates(s: seq<string>) {
    forall i, j :: 0 <= i < j < |s| ==> s[i] != s[j]
  }

  /** The tags of `order` whose flag is set, in the order of `order`. */
  function Select(order: seq<string>, flags: seq<bool>): seq<string>
    requires |flags| == |order|
  {
    if order == [] then []
    else (if flags[0] then [order[0]] else []) + Select(order[1..], flags[1..])
  }

  lemma SelectCons(order: seq<string>, flags: seq<bool>)
    requires |flags| == |order| > 0
    ensures Select(order, flags) == Optional(flags[0], order[0]) + Select(order[1..], flags[1..])
  {
  }

  lemma SelectThree(order: seq<string>, flags: seq<bool>)
    requires |flags| == |order| == 3
    ensures Select(order, flags) ==
      Optional(flags[0], order[0]) + Optional(flags[1], order[1]) + Optional(flags[2], order[2])
  {
    SelectCons(order[2..], flags[2..]);
    assert Select(order[2..][1..], flags[2..][1..]) == [];
    SelectCons(order[1..], flags[1..]);
    assert order[1..][1..] == order[2..] && flags[1..][1..] == flags[2..];
    SelectCons(order, flags);
  }

  lemma SelectFive(order: seq<string>, flags: seq<bool>)
    requires |flags| == |order| == 5
    ensures Select(order, flags) ==
      Optional(flags[0], order[0]) + Optional(flags[1], order[1])
      + Optional(flags[2], order[2]) + Optional(flags[3], order[3]) + Optional(flags[4], order[4])
  {
    SelectThree(order[2..], flags[2..]);
    SelectCons(order[1..], flags[1..]);
    assert order[1..][1..] == order[2..] && flags[1..][1..] == flags[2..];
    SelectCons(order, flags);
  }

  /** A tag is selected exactly when it is in the order and its flag is set. */
  lemma {:induction false} SelectMember(order: seq<string>, flags: seq<bool>, x: string)
    requires |flags| == |order| && NoDuplicates(order)
    ensures x in Select(order, flags) <==> x in order && flags[IndexOf(order, x)]
  {
    if order != [] {
      SelectMember(order[1..], flags[1..], x);
      if x != order[0] && x in order {
        assert x in order[1..];
      }
    }
  }

  lemma {:induction false} SelectNoDuplicates(order: seq<string>, flags: seq<bool>)
    requires |flags| == |order| && NoDuplicates(order)
    ensures NoDuplicates(Select(order, flags))
  {
    if order != [] {
      SelectNoDuplicates(order[1..], flags[1..]);
      SelectMember(order[1..], flags[1..], order[0]);
    }
  }

  /** When Rust detection yields a result, detection returns it. */
  lemma RustTakesPrecedence(dir: ProjectDir)
    requires RustDetection(dir).Some?
    ensures DetectProject(dir) == RustDetection(dir)
    ensures DetectProject(dir).value.projectType.IsRust()
  {
  }

  /** ... and package.json is never consulted then. */
  lemma JsNotConsulted(dir: ProjectDir, pkg: Option<Value>)
    requires RustDetection(dir).Some?
    ensures DetectProject(dir.(packageJson := pkg)) == DetectProject(dir)
  {
  }

  /** A readable Cargo.toml always makes a Rust project, whatever package.json holds. */
  lemma ReadableCargoGivesRust(dir: ProjectDir)
    requires CargoManifest in dir.rootFiles && dir.cargoToml.Some?
    ensures DetectProject(dir).Some?
    ensures DetectProject(dir).value.projectType in {RustNormal, RustWasm}
  {
  }

  /** An unreadable or unparsable Cargo.toml falls through to JS detection. */
  lemma UnreadableCargoFallsThrough(dir: ProjectDir)
    requires CargoManifest in dir.rootFiles && dir.cargoToml.None?
    ensures RustDetection(dir).None?
    ensures DetectProject(dir) == JsDetection(dir)
  {
  }

  /** Detection fails exactly when neither manifest exists and parses. */
  lemma DetectProjectNoneIff(dir: ProjectDir)
    ensures DetectProject(dir).None? <==>
      && ReadManifest(dir.rootFiles, CargoManifest, dir.cargoToml).None?
      && ReadManifest(dir.rootFiles, PackageManifest, dir.packageJson).None?
  {
  }

  lemma NoManifestNoProject(dir: ProjectDir)
    requires CargoManifest !in dir.rootFiles && PackageManifest !in dir.rootFiles
    ensures DetectProject(dir).None?
  {
  }

  /**
   * The path is the input path; the name is the manifest's name when it is
   * a string and "unknown" otherwise.
   */
  lemma DetectedNameAndPath(dir: ProjectDir)
    requires DetectProject(dir).Some?
    ensures DetectProject(dir).value.path == dir.path
    ensures var info := DetectProject(dir).value;
      info.projectType.IsRust() ==>
        var name := PackageName(dir.cargoToml.value);
        (name.Some? && name.value.Str? ==> info.name == name.value.s) &&
        (!(name.Some? && name.value.Str?) ==> info.name == Unknown)
    ensures var info := DetectProject(dir).value;
      !info.projectType.IsRust() ==>
        var name := Get(dir.packageJson.value, "name");
        (name.Some? && name.value.Str? ==> info.name == name.value.s) &&
        (!(name.Some? && name.value.Str?) ==> info.name == Unknown)
  {
  }

  /**
   * Rust feature tags: "wasm" exactly for RustWasm, then "dependencies" and
   * "dev-dependencies" exactly when that key is present (whatever its
   * value), in this order, no tag twice.
   */
  lemma RustFeatureTags(dir: ProjectDir)
    requires RustDetection(dir).Some?
    ensures var info := RustDetection(dir).value;
      var doc := dir.cargoToml.value;
      && info.features == Select(RustFeatureOrder, RustFlags(info.projectType, doc))
      && ("wasm" in info.features <==> info.projectType == RustWasm)
      && ("dependencies" in info.features <==> Get(doc, "dependencies").Some?)
      && ("dev-dependencies" in info.features <==> Get(doc, "dev-dependencies").Some?)
      && NoDuplicates(info.features)
  {
    var info := RustDetection(dir).value;
    var flags := RustFlags(info.projectType, dir.cargoToml.value);
    SelectThree(RustFeatureOrder, flags);
    RustFeatureOrderFacts();
    SelectMember(RustFeatureOrder, flags, "wasm");
    SelectMember(RustFeatureOrder, flags, "dependencies");
    SelectMember(RustFeatureOrder, flags, "dev-dependencies");
    SelectNoDuplicates(RustFeatureOrder, flags);
  }

  /** Which of the Rust feature tags apply, position by position in RustFeatureOrder. */
  function RustFlags(t: ProjectType, doc: Value): (flags: seq<bool>)
    ensures |flags| == |RustFeatureOrder|
  {
    [t == RustWasm, Get(doc, "dependencies").Some?, Get(doc, "dev-dependencies").Some?]
  }

  lemma RustFeatureOrderFacts()
    ensures NoDuplicates(RustFeatureOrder)
    ensures IndexOf(RustFeatureOrder, "wasm") == 0
    ensures IndexOf(RustFeatureOrder, "dependencies") == 1
    ensures IndexOf(RustFeatureOrder, "dev-dependencies") == 2
  {
  }

  /** wasm-pack metadata or a wasm-bindgen dependency alone make a WASM crate. */
  lemma WasmBySignal(doc: Value, rootFiles: set<string>)
    requires WasmPackMetadata(doc).Some?
          || WasmBindgenDependency(doc).Some?
    ensures IsWasmProject(doc, rootFiles)
  {
  }

  /**
   * Without those signals, a `crate-type` array decides by whether it holds
   * "cdylib", and the marker file is not looked at.
   */
  lemma CrateTypeArrayDecides(doc: Value, rootFiles: set<string>, types: seq<Value>)
    requires WasmPackMetadata(doc).None?
    requires WasmBindgenDependency(doc).None?
    requires CrateType(doc) == Some(Arr(types))
    ensures IsWasmProject(doc, rootFiles) <==> Str("cdylib") in types
    ensures IsWasmProject(doc, rootFiles) == IsWasmProject(doc, rootFiles + {WasmPackMarker})
  {
  }

  /** In every other case the marker file decides. */
  lemma WasmPackMarkerFallback(doc: Value, rootFiles: set<string>)
    requires WasmPackMetadata(doc).None?
    requires WasmBindgenDependency(doc).None?
    requires !(CrateType(doc).Some? && CrateType(doc).value.Arr?)
    ensures IsWasmProject(doc, rootFiles) <==> WasmPackMarker in rootFiles
  {
  }

  /**
   * Any of the three TypeScript config files makes the project TypeScript,
   * ahead of the Node.js test, with "typescript" as first feature; and only
   * they do.
   */
  lemma TypeScriptConfigWins(dir: ProjectDir)
    requires JsDetection(dir).Some?
    ensures var info := JsDetection(dir).value;
      && (info.projectType == TypeScript <==> exists c :: c in TypeScriptConfigs && c in dir.rootFiles)
      && (info.projectType == TypeScript ==> info.features[0] == "typescript")
  {
  }

  /** A string `main` decides by its extension, whatever the dependencies. */
  lemma StringMainDecides(pkg: Value, main: string)
    requires Get(pkg, "main") == Some(Str(main))
    ensures IsNodeManifest(pkg) <==> EndsWith(main, ".js") || EndsWith(main, ".mjs")
  {
  }

  /** Without a string `main`: a server dependency or `engines.node`. */
  lemma NodeWithoutStringMain(pkg: Value)
    requires !(Get(pkg, "main").Some? && Get(pkg, "main").value.Str?)
    ensures IsNodeManifest(pkg) <==>
      (exists d :: d in NodeDependencies && AndGet(Get(pkg, "dependencies"), d).Some?)
      || EnginesNode(pkg).Some?
  {
  }

  /**
   * JS feature tags: the type tag first ("typescript" or "nodejs", none for
   * plain JavaScript), then "dependencies", "devDependencies" and "scripts"
   * exactly when that key is present, in this order, no tag twice.
   */
  lemma JsFeatureTags(dir: ProjectDir)
    requires JsDetection(dir).Some?
    ensures var info := JsDetection(dir).value;
      var pkg := dir.packageJson.value;
      && info.features == Select(JsFeatureOrder, JsFlags(info.projectType, pkg))
      && ("typescript" in info.features <==> info.projectType == TypeScript)
      && ("nodejs" in info.features <==> info.projectType == NodeJs)
      && ("dependencies" in info.features <==> Get(pkg, "dependencies").Some?)
      && ("devDependencies" in info.features <==> Get(pkg, "devDependencies").Some?)
      && ("scripts" in info.features <==> Get(pkg, "scripts").Some?)
      && NoDuplicates(info.features)
  {
    var info := JsDetection(dir).value;
    var flags := JsFlags(info.projectType, dir.packageJson.value);
    JsFeaturesSelect(info.projectType, dir.packageJson.value);
    JsFeatureOrderFacts();
    SelectMember(JsFeatureOrder, flags, "typescript");
    SelectMember(JsFeatureOrder, flags, "nodejs");
    SelectMember(JsFeatureOrder, flags, "dependencies");
    SelectMember(JsFeatureOrder, flags, "devDependencies");
    SelectMember(JsFeatureOrder, flags, "scripts");
    SelectNoDuplicates(JsFeatureOrder, flags);
  }

  /** Which of the JS feature tags apply, position by position in JsFeatureOrder. */
  function JsFlags(t: ProjectType, pkg: Value): (flags: seq<bool>)
    ensures |flags| == |JsFeatureOrder|
  {
    [t == TypeScript, t == NodeJs, Get(pkg, "dependencies").Some?,
     Get(pkg, "devDependencies").Some?, Get(pkg, "scripts").Some?]
  }

  lemma JsFeaturesSelect(t: ProjectType, pkg: Value)
    ensures JsFeatures(t, pkg) == Select(JsFeatureOrder, JsFlags(t, pkg))
  {
    SelectFive(JsFeatureOrder, JsFlags(t, pkg));
  }

  lemma JsFeatureOrderFacts()
    ensures NoDuplicates(JsFeatureOrder)
    ensures IndexOf(JsFeatureOrder, "typescript") == 0
    ensures IndexOf(JsFeatureOrder, "nodejs") == 1
    ensures IndexOf(JsFeatureOrder, "dependencies") == 2
    ensures IndexOf(JsFeatureOrder, "devDependencies") == 3
    ensures IndexOf(JsFeatureOrder, "scripts") == 4
  {
  }

  /** A Cargo.toml that declares wasm-bindgen gives RustWasm with "wasm". */
  lemma WasmBindgenScenario(path: string, rootFiles: set<string>, deps: map<string, Value>)
    requires CargoManifest in rootFiles
    requires "wasm-bindgen" in deps
    ensures var doc := Table(map["dependencies" := Table(deps)]);
      var r := DetectProject(ProjectDir(path, rootFiles, Some(doc), None));
      r.Some? && r.value.projectType == RustWasm && r.value.features == ["wasm", "dependencies"]
  {
    var doc := Table(map["dependencies" := Table(deps)]);
    assert WasmBindgenDependency(doc).Some?;
  }

  /** package.json with `"main": "index.js"` and no TypeScript config is Node.js. */
  lemma ExpressScenario(path: string, rootFiles: set<string>)
    requires PackageManifest in rootFiles && CargoManifest !in rootFiles
    requires !HasTypeScriptConfig(rootFiles)
    ensures var pkg := Table(map["main" := Str("index.js"), "dependencies" := Table(map["express" := Str("^4")])]);
      var r := DetectProject(ProjectDir(path, rootFiles, None, Some(pkg)));
      r.Some? && r.value.projectType == NodeJs && r.value.features == ["nodejs", "dependencies"]
  {
    var pkg := Table(map["main" := Str("index.js"), "dependencies" := Table(map["express" := Str("^4")])]);
    assert Get(pkg, "main") == Some(Str("index.js"));
    assert EndsWith("index.js", ".js");
  }
}

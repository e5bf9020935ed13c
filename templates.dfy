/**
 * The base template sets (`TemplateManager`): one fixed table of
 * (name, prompt) pairs per project type, and the plain project header.
 */
module Templates {
  import opened Text
  import opened Project

  /** A (name, content) pair as the generator returns it. */
  type Template = (string, string)

  predicate DistinctNames(ts: seq<Template>) {
    forall i, j :: 0 <= i < j < |ts| ==> ts[i].0 != ts[j].0
  }

  const RustReviewPerformance := "Analyze the performance characteristics of this Rust code and suggest improvements to make it faster or more efficient:"
  const RustGenerateTests := "Generate unit tests for the following Rust function using the built-in test framework:"
  const RustAddDocumentation := "Add comprehensive Rust documentation comments (///) to the following code:"
  const RustOptimizeMemory := "Review this Rust code for memory usage optimization opportunities:"
  const RustAddErrorHandling := "Improve error handling in this Rust code using Result<T, E> and proper error types:"
  const RustRefactorTraits := "Suggest trait implementations or refactoring opportunities for this Rust code:"
  const RustCargoOptimization := "Analyze and suggest Cargo.toml optimizations for this Rust project:"
  const RustAsyncConversion := "Convert this synchronous Rust code to use async/await patterns:"

  function RustTemplates(): (ts: seq<Template>)
    ensures |ts| == 8 && DistinctNames(ts)
  {
    [ ("review-performance", RustReviewPerformance),
      ("generate-tests", RustGenerateTests),
      ("add-documentation", RustAddDocumentation),
      ("optimize-memory", RustOptimizeMemory),
      ("add-error-handling", RustAddErrorHandling),
      ("refactor-traits", RustRefactorTraits),
      ("cargo-optimization", RustCargoOptimization),
      ("async-conversion", RustAsyncConversion) ]
  }

  const WasmBindgenWrapper := "Create wasm-bindgen JavaScript bindings for this Rust function:"
  const WasmOptimize := "Optimize this Rust code for WebAssembly size and performance:"
  const WasmJsInterop := "Create JavaScript interop code for this Rust WASM module:"
  const WasmMemoryManagement := "Review and optimize memory management for this Rust WASM code:"
  const WasmPackConfig := "Generate wasm-pack configuration for this Rust WebAssembly project:"
  const WasmBrowserIntegration := "Create browser integration code for this Rust WASM module:"
  const WasmTypes := "Convert these Rust types to be WASM-compatible with proper serialization:"
  const WasmPerformanceProfile := "Create performance profiling setup for this Rust WASM application:"

  function RustWasmTemplates(): (ts: seq<Template>)
    ensures |ts| == 8 && DistinctNames(ts)
  {
    [ ("wasm-bindgen-wrapper", WasmBindgenWrapper),
      ("wasm-optimize", WasmOptimize),
      ("js-interop", WasmJsInterop),
      ("wasm-memory-management", WasmMemoryManagement),
      ("wasm-pack-config", WasmPackConfig),
      ("browser-integration", WasmBrowserIntegration),
      ("wasm-types", WasmTypes),
      ("performance-profile", WasmPerformanceProfile) ]
  }

  const JsAddJsdoc := "Add comprehensive JSDoc comments to the following JavaScript code:"
  const JsModernizeSyntax := "Convert this JavaScript code to use modern ES6+ syntax and features:"
  const JsAddErrorHandling := "Improve error handling in this JavaScript code with try-catch and proper validation:"
  const JsGenerateTests := "Generate unit tests for the following JavaScript function using Jest:"
  const JsOptimizePerformance := "Analyze and optimize the performance of this JavaScript code:"
  const JsAddValidation := "Add input validation and type checking to this JavaScript function:"
  const JsConvertPromises := "Convert this callback-based JavaScript code to use Promises or async/await:"
  const JsBundleAnalysis := "Analyze this JavaScript code for bundle size optimization opportunities:"

  function JavaScriptTemplates(): (ts: seq<Template>)
    ensures |ts| == 8 && DistinctNames(ts)
  {
    [ ("add-jsdoc", JsAddJsdoc),
      ("modernize-syntax", JsModernizeSyntax),
      ("add-error-handling", JsAddErrorHandling),
      ("generate-tests", JsGenerateTests),
      ("optimize-performance", JsOptimizePerformance),
      ("add-validation", JsAddValidation),
      ("convert-promises", JsConvertPromises),
      ("bundle-analysis", JsBundleAnalysis) ]
  }

  const TsAddTypes := "Add comprehensive TypeScript type annotations to this JavaScript code:"
  const TsInterfaceDesign := "Design TypeScript interfaces and types for this code structure:"
  const TsGenericImplementation := "Implement TypeScript generics to make this code more reusable:"
  const TsStrictModeFix := "Fix TypeScript strict mode errors in this code:"
  const TsTypeGuards := "Create TypeScript type guards for runtime type checking:"
  const TsUtilityTypes := "Use TypeScript utility types to improve this code structure:"
  const TsDeclarationFiles := "Generate TypeScript declaration files (.d.ts) for this JavaScript library:"
  const TsTsconfigOptimization := "Optimize tsconfig.json settings for this TypeScript project:"

  function TypeScriptTemplates(): (ts: seq<Template>)
    ensures |ts| == 8 && DistinctNames(ts)
  {
    [ ("add-types", TsAddTypes),
      ("interface-design", TsInterfaceDesign),
      ("generic-implementation", TsGenericImplementation),
      ("strict-mode-fix", TsStrictModeFix),
      ("type-guards", TsTypeGuards),
      ("utility-types", TsUtilityTypes),
      ("declaration-files", TsDeclarationFiles),
      ("tsconfig-optimization", TsTsconfigOptimization) ]
  }

  const NodeExpressMiddleware := "Create Express.js middleware for this functionality:"
  const NodeApiEndpoint := "Design and implement a RESTful API endpoint for this Node.js application:"
  const NodeDatabaseIntegration := "Add database integration code for this Node.js function:"
  const NodeEnvironmentConfig := "Create environment-based configuration management for this Node.js app:"
  const NodeLoggingSetup := "Implement comprehensive logging for this Node.js application:"
  const NodeAuthentication := "Add authentication and authorization to this Node.js API:"
  const NodeDockerSetup := "Create Docker configuration for this Node.js application:"
  const NodePerformanceMonitoring := "Add performance monitoring and health checks to this Node.js service:"
  const NodePackageOptimization := "Optimize package.json and dependencies for this Node.js project:"

  function NodeJsTemplates(): (ts: seq<Template>)
    ensures |ts| == 9 && DistinctNames(ts)
  {
    [ ("express-middleware", NodeExpressMiddleware),
      ("api-endpoint", NodeApiEndpoint),
      ("database-integration", NodeDatabaseIntegration),
      ("environment-config", NodeEnvironmentConfig),
      ("logging-setup", NodeLoggingSetup),
      ("authentication", NodeAuthentication),
      ("docker-setup", NodeDockerSetup),
      ("performance-monitoring", NodePerformanceMonitoring),
      ("package-optimization", NodePackageOptimization) ]
  }

  /**
   * `get_templates_for_project`: every project type has its table; nine
   * templates for Node.js, eight for the others, names never repeated.
   */
  function GetTemplatesForProject(project: ProjectInfo): (ts: seq<Template>)
    ensures |ts| == if project.projectType == NodeJs then 9 else 8
    ensures DistinctNames(ts)
  {
    match project.projectType
    case RustNormal => RustTemplates()
    case RustWasm => RustWasmTemplates()
    case JavaScript => JavaScriptTemplates()
    case TypeScript => TypeScriptTemplates()
    case NodeJs => NodeJsTemplates()
  }

  /** The dispatch depends on the project type alone, and no two types share a table. */
  lemma TablePerProjectType(p: ProjectInfo, q: ProjectInfo)
    ensures GetTemplatesForProject(p) == GetTemplatesForProject(q) <==> p.projectType == q.projectType
  {
    if p.projectType != q.projectType {
      assert GetTemplatesForProject(p)[0].0 != GetTemplatesForProject(q)[0].0;
    }
  }

  /** `get_custom_templates`: always the empty map. */
  function GetCustomTemplates(): (custom: map<string, string>)
    ensures |custom| == 0
  {
    map[]
  }

  /** `Project: NAME (Type)`, the first line of every generated header. */
  function ProjectHeader(info: ProjectInfo): string {
    "Project: " + info.name + " (" + TypeName(info.projectType) + ")"
  }

  /**
   * `create_project_specific_template`: header line, features line (left
   * empty when there are no features), a blank line, then the content.
   */
  function CreateProjectSpecificTemplate(project: ProjectInfo, templateName: string, content: string): (r: string)
    ensures IsPrefix(ProjectHeader(project) + "\n", r)
    ensures EndsWith(r, "\n\n" + content)
    ensures project.features == [] ==> r == ProjectHeader(project) + "\n\n\n" + content
    ensures project.features != [] ==>
      IsPrefix(ProjectHeader(project) + "\nFeatures: " + Join(project.features, ", ") + "\n\n", r)
    ensures project.features != [] ==>
      r == ProjectHeader(project) + "\nFeatures: " + Join(project.features, ", ") + "\n\n" + content
  {
    var features := if project.features != [] then "Features: " + Join(project.features, ", ") else "";
    ProjectHeader(project) + "\n" + features + "\n\n" + content
  }

  /** The template name does not enter the text. */
  lemma TemplateNameIgnored(project: ProjectInfo, name1: string, name2: string, content: string)
    ensures CreateProjectSpecificTemplate(project, name1, content)
         == CreateProjectSpecificTemplate(project, name2, content)
  {
  }
}

# ccmgen core in Dafny

This is a model of the decision logic of `ccmgen`, a generator of custom slash-command
prompt files for Rust and JavaScript projects. The model covers four parts, and each one is proved against a
specification:

- **Project classification** (`ProjectDetector`), in `project.dfy`. It reads the manifests at a
  directory's root. A readable `Cargo.toml` makes the project Rust and wins over `package.json`.
  A short-circuiting chain of checks then picks the variant:
  - Rust: wasm-pack metadata, then a wasm-bindgen dependency, then a `crate-type` array, then the
    `wasm-pack.json` marker file.
  - JS: the TypeScript config names, then the extension of `main`, then a server dependency,
    then `engines.node`.

  Detection also builds an ordered list of feature tags. The filesystem is abstract: a directory
  is the set of file names at its root, plus, for each manifest, the parsed tree or `None` when
  reading or parsing failed. `manifest.dfy` holds that tree with its `get` lookup.
- **Base templates** (`TemplateManager`), in `templates.dfy`. There is one fixed table of
  (name, prompt) pairs per project type, plus the plain project header.
- **Context-specific templates** (`SmartTemplateManager`), in `smart_templates.dfy`. This part
  covers:
  - the context header built from a project's profile;
  - one template per recognised suggestion identifier;
  - "enhanced" init templates: the base prompts under that header, followed by the
    context-specific ones.
- **Custom-template configuration** (`ConfigManager`), in `config.dfy`. This part covers the
  default configuration, the fallback when a load fails, the per-language lookup, and the
  in-memory step of adding a template.

`text.dfy` models the string operations the source uses: `ends_with`, `join`, and the decimal
rendering of a length. It also has a prefix predicate, which the contracts use.

Detection, header building and template generation are written the way the source writes them.
The detectors are methods that push onto a local vector. The Node.js check is a method with an
early-returning loop. The header builder appends to a string one line at a time, without a loop.
The template generators are methods that push inside a `for` loop. Each method's postcondition
ties it to a specification function. The properties are then proved as lemmas
about those functions.

## Model

| member | source | states |
|---|---|---|
| `Project.TypeName` | src/project.rs:5-12 | The variant's name as the derived `Debug` prints it. Its partner `Project.TypeNameInjective` shows distinct variants print differently. |
| `Project.TypeNameInjective` | src/project.rs:5-12 | Two variants whose printed names are equal are the same variant. |
| `Project.DetectProject` | src/project.rs:25-33 | The result keeps the input path. It is a Rust project exactly when `Cargo.toml` exists and parses, so Rust wins whenever it can. The lemmas `RustTakesPrecedence`, `JsNotConsulted`, `UnreadableCargoFallsThrough` and `DetectProjectNoneIff` state the rest. |
| `Project.RustDetection` | src/project.rs:35-72 | The specification of `detect_rust_project`. There is a result exactly when `Cargo.toml` exists and parses. It then has a Rust type, RustWasm exactly when the WASM check holds, and the input path. `RustFeatureTags` and `DetectedNameAndPath` state the features and the name. |
| `Project.JsDetection` | src/project.rs:74-116 | The specification of `detect_js_project`. There is a result exactly when `package.json` exists and parses. It then has a JS type and the input path. The type is NodeJs exactly when there is no TypeScript config and the manifest passes the Node.js test, and JavaScript exactly when it passes neither. `TypeScriptConfigWins` states the TypeScript case. `JsFeatureTags` and `DetectedNameAndPath` state the features and the name. |
| `Project.IsWasmProject` | src/project.rs:118-145 | wasm-pack metadata or a wasm-bindgen dependency makes the crate WASM. Conversely, a WASM verdict always has a signal: one of those two, a `crate-type` array containing `cdylib`, or the `wasm-pack.json` marker. `WasmBySignal`, `CrateTypeArrayDecides` and `WasmPackMarkerFallback` state the exact short-circuit order. |
| `Project.HasTypeScriptConfig` | src/project.rs:147-151 | True exactly when one of `tsconfig.json`, `tsconfig.build.json` and `typescript.json` is at the root. |
| `Project.IsNodeManifest` | src/project.rs:153-179 | The specification of `is_node_project`. It has no contract of its own. `StringMainDecides` and `NodeWithoutStringMain` state it: a string `main` decides by its extension alone; otherwise a server dependency or `engines.node` decides. `IsNodeProject` is proved equal to it. |
| `Project.DetectRustProject` | src/project.rs:35-72 | The early-returning, pushing detector computes exactly `RustDetection`. It gives `None` when `Cargo.toml` is absent or does not read and parse. Otherwise it gives the name, the path, the variant chosen by the wasm check, and the features. |
| `Project.DetectJsProject` | src/project.rs:74-116 | The JS detector computes exactly `JsDetection`. It gives `None` without a readable `package.json`. The type is TypeScript, else NodeJs, else JavaScript, and the features are pushed in source order. |
| `Project.IsNodeProject` | src/project.rs:153-179 | The loop over `express`, `fastify`, `koa` and `@types/node` with its early return decides exactly `IsNodeManifest`. When `main` is a string, the result is whether it ends in `.js` or `.mjs`. |
| `Project.RustTakesPrecedence` | src/project.rs:25-33 | When Rust detection yields a result, `detect_project` returns that result, and its type is RustNormal or RustWasm. |
| `Project.JsNotConsulted` | src/project.rs:26-27 | When Rust detection succeeds, the contents of `package.json` do not affect the outcome. |
| `Project.ReadableCargoGivesRust` | src/project.rs:36-42 | An existing, parsable `Cargo.toml` always yields a Rust project, whatever `package.json` holds. |
| `Project.UnreadableCargoFallsThrough` | src/project.rs:41-42 | A `Cargo.toml` that exists but does not read or parse gives `None` from Rust detection, and the result is whatever JS detection gives. |
| `Project.DetectProjectNoneIff` | src/project.rs:25-33 | Detection yields nothing exactly when neither manifest both exists and parses. |
| `Project.NoManifestNoProject` | src/project.rs:36-39 | With neither `Cargo.toml` nor `package.json` at the root, detection yields `None`. |
| `Project.DetectedNameAndPath` | src/project.rs:44-49 | The path is the input path. The name is `package.name` (Rust) or `name` (JS) when that value is a string, and `"unknown"` otherwise. |
| `Project.RustFeatureTags` | src/project.rs:51-64 | The Rust features are `wasm`, `dependencies` and `dev-dependencies`, in that order. `wasm` is present exactly for RustWasm; each of the other two is present exactly when its key is present, and an empty table counts. No tag occurs twice. |
| `Project.WasmBySignal` | src/project.rs:120-132 | wasm-pack metadata or a wasm-bindgen dependency is enough to make the crate WASM. |
| `Project.CrateTypeArrayDecides` | src/project.rs:135-141 | Without those two signals, a `lib.crate-type` array decides by itself: WASM exactly when it contains the string `cdylib`. Adding `wasm-pack.json` then changes nothing. |
| `Project.WasmPackMarkerFallback` | src/project.rs:143-144 | In every remaining case, the crate is WASM exactly when `wasm-pack.json` exists. |
| `Project.TypeScriptConfigWins` | src/project.rs:90-92 | A JS project is TypeScript exactly when one of `tsconfig.json`, `tsconfig.build.json` or `typescript.json` exists. That check comes before the Node.js check, and the first feature is then `typescript`. |
| `Project.StringMainDecides` | src/project.rs:155-159 | A string `main` decides the Node.js test by its extension alone. |
| `Project.NodeWithoutStringMain` | src/project.rs:161-178 | Without a string `main`, the project is Node.js exactly when `dependencies` holds one of the four server packages, or `engines.node` is present. |
| `Project.JsFeatureTags` | src/project.rs:89-108 | The JS features are the type tag (`typescript` or `nodejs`, none for plain JavaScript), then `dependencies`, `devDependencies` and `scripts`, each exactly when its key is present, in that order, with no tag twice. |
| `Project.WasmBindgenScenario` | src/project.rs:128-132 | Example: a `Cargo.toml` whose only key is a `dependencies` table naming wasm-bindgen is detected as RustWasm, with features `wasm` and `dependencies`. |
| `Project.ExpressScenario` | src/project.rs:155-157 | Example: with no `Cargo.toml` and no TypeScript config, a `package.json` holding only `main` set to `index.js` and an `express` dependency is detected as NodeJs, with features `nodejs` and `dependencies`. |
| `Project.SelectMember` | src/project.rs:100-108 | A feature tag is in the pushed list exactly when its flag is set. |
| `Project.SelectNoDuplicates` | src/project.rs:51-64 | Pushing distinct tags, each at most once, gives a list without duplicates. |
| `Templates.GetTemplatesForProject` | src/templates.rs:7-15 | Every project type has a table: nine templates for NodeJs and eight for the other types, with names pairwise distinct. |
| `Templates.TablePerProjectType` | src/templates.rs:8-14 | Two projects get the same table exactly when their types are equal, so each type has its own table. |
| `Templates.RustTemplates` | src/templates.rs:17-36 | The Rust table has eight entries with distinct names. |
| `Templates.RustWasmTemplates` | src/templates.rs:38-57 | The RustWasm table has eight entries with distinct names. |
| `Templates.JavaScriptTemplates` | src/templates.rs:59-78 | The JavaScript table has eight entries with distinct names. |
| `Templates.TypeScriptTemplates` | src/templates.rs:80-99 | The TypeScript table has eight entries with distinct names. |
| `Templates.NodeJsTemplates` | src/templates.rs:101-122 | The NodeJs table has nine entries with distinct names. |
| `Templates.GetCustomTemplates` | src/templates.rs:124-127 | The result is always the empty map. |
| `Templates.CreateProjectSpecificTemplate` | src/templates.rs:129-138 | The exact text: the `Project: NAME (Type)` line, then a second line that is `Features: ` followed by the features joined with `, ` (empty when there are no features), then a blank line, then the content. So it always starts with the header line and ends with a blank line followed by the content. |
| `Templates.TemplateNameIgnored` | src/templates.rs:129 | The template-name argument has no effect on the text. |
| `Templates.ProjectHeader` | src/templates.rs:130 | The `Project: NAME (Type)` line shared by both header builders. A specification with no contract of its own: `CreateProjectSpecificTemplate` and `SmartTemplates.ContextStringLayout` state where it appears, and `Project.TypeNameInjective` shows the type part names the type. |
| `SmartTemplates.IsImportantDependency` | src/smart_templates.rs:118-127 | The specification of `is_important_dependency`: the Rust list for both Rust types and the JS list for the three JS types. It has no contract of its own. `ImportanceByEcosystem` and `ImportanceExclusive` state its properties. |
| `SmartTemplates.ContextString` | src/smart_templates.rs:83-116 | The specification of `build_context_string`. It has no contract of its own. `BuildContextString` is proved equal to it, and `ContextStringLayout`, `OptionalLines`, `FilesLineCounts`, `KeyDependenciesBounds` and `ScriptNamesBounds` state its shape. |
| `SmartTemplates.ImportanceByEcosystem` | src/smart_templates.rs:118-127 | Importance depends only on the ecosystem: both Rust types share one list, and the three JS types share the other. |
| `SmartTemplates.ImportanceExclusive` | src/smart_templates.rs:120-125 | No dependency is important for both a Rust type and a JS type. For example, `react` is not important for Rust. |
| `SmartTemplates.BuildContextString` | src/smart_templates.rs:83-116 | Growing the header with `push_str` computes exactly `ContextString`. |
| `SmartTemplates.ImportantNamesMembers` | src/smart_templates.rs:99-100 | The filter keeps exactly the important dependency names, never more names than it was given. |
| `SmartTemplates.KeyDependenciesBounds` | src/smart_templates.rs:98-106 | There are at most five key dependencies, each an important dependency of the project's type and a key of the map. The list is empty exactly when no key qualifies, and when at most five qualify, all of them are listed. |
| `SmartTemplates.ScriptNamesBounds` | src/smart_templates.rs:109-112 | At most three script names are listed, taken from the front of the keys in iteration order. The list is empty only when there are no scripts. |
| `SmartTemplates.ContextStringLayout` | src/smart_templates.rs:87-96 | The header starts with `Project: NAME (Type)`. A `Features:` line follows only when there are features, and the `Files:` line comes next. |
| `SmartTemplates.OptionalLines` | src/smart_templates.rs:98-113 | The `Key dependencies` line is present exactly when some dependency qualifies. The `Available scripts` line is present exactly when there are scripts. |
| `SmartTemplates.FilesLineCounts` | src/smart_templates.rs:93-96 | The `Files:` line carries the three counts in decimal, and each reads back as the length of its list. |
| `SmartTemplates.CreateTemplateForCommand` | src/smart_templates.rs:19-81 | The result is a template exactly for the fourteen known identifiers, and `None` for any other. The template is named after the command, and its content starts with the context header followed by a blank line. |
| `SmartTemplates.RecognisedCommands` | src/smart_templates.rs:10-14 | The suggestions that have a template, in their order. It has no contract of its own. `RecognisedCommandsMembers` states that it holds exactly the suggested identifiers that are known, and `RecognisedCommandsNoDuplicates` that it repeats none when the suggestions repeat none. |
| `SmartTemplates.ContextTemplates` | src/smart_templates.rs:7-17 | The specification of `generate_context_specific_templates`: the filter-map of `create_template_for_command` over the suggestions. It has no contract of its own. `ContextTemplatesFollowCommands` states its names, length and header prefix, and `GenerateContextSpecificTemplates` is proved equal to it. |
| `SmartTemplates.ContextTemplatesFollowCommands` | src/smart_templates.rs:7-17 | There is one template per recognised suggestion, in the order of the suggestions, so never more than there are suggestions. Each template is headed by the context string. |
| `SmartTemplates.RecognisedCommandsMembers` | src/smart_templates.rs:10-14 | The kept identifiers are exactly the suggested ones that are known. |
| `SmartTemplates.RecognisedCommandsNoDuplicates` | src/smart_templates.rs:10-14 | Distinct suggestions give distinct kept identifiers. |
| `SmartTemplates.BaseNamesAreNotCommands` | src/templates.rs:17-122 | No base template is named like one of the fourteen suggestion identifiers. |
| `SmartTemplates.GenerateContextSpecificTemplates` | src/smart_templates.rs:7-17 | The loop produces exactly the filter-map of the suggestions: each name is the matching recognised identifier, and each content starts with the header and a blank line. |
| `SmartTemplates.EnhancedNamesDistinct` | src/smart_templates.rs:129-147 | Base names and context-specific names never clash, so distinct suggestions give distinct names throughout. |
| `SmartTemplates.CreateEnhancedInitTemplates` | src/smart_templates.rs:129-147 | The base templates come first, in order, with their names. Each content is the header, a blank line, then the base prompt. The context-specific templates follow, so the length is the sum of the two. With distinct suggestions, all names are distinct. |
| `Text.Decimal` | src/smart_templates.rs:93-96 | A length is rendered as a non-empty string of digits with no leading zero. |
| `Text.DecimalRoundTrip` | src/smart_templates.rs:93-96 | Reading the rendered digits back gives the length. |
| `Text.DecimalInjective` | src/smart_templates.rs:93-96 | Different counts are never rendered alike. |
| `ConfigManager.DefaultSettings.Default` | src/config.rs:30-39 | All four default settings are `true`. |
| `ConfigManager.Config.Default` | src/config.rs:41-48 | The default configuration has no custom templates and the default settings. |
| `ConfigManager.LoadConfig` | src/config.rs:60-79 | A missing, unreadable or unparsable file gives the default configuration, and a parsed file gives its contents. |
| `ConfigManager.TemplatesFor` | src/config.rs:123-127 | The lookup gives the stored list for a language, or the empty list when the language is absent. |
| `ConfigManager.GetCustomTemplatesForLanguage` | src/config.rs:121-128 | This is load, then look up: empty whenever loading fell back to the default. |
| `ConfigManager.NewTemplate` | src/config.rs:104-110 | The added template carries the given name, description and content, with `language` set to `Some(language)` and `project_type` set to `None`. |
| `ConfigManager.WithTemplate` | src/config.rs:112-116 | The entry update appends at the end of the language's list, creating the list when it is missing. The settings are unchanged, the key set gains the language, and every other language's list is unchanged. |
| `ConfigManager.AddCustomTemplate` | src/config.rs:96-117 | Load, build, then push onto the entry. The configuration to be saved has the settings of the loaded one and the language's list followed by the new template. No other language changes. |
| `ConfigManager.AddThenGet` | src/config.rs:121-128 | After the updated configuration is saved and read back, the per-language lookup returns the old list followed by the new template, and every other language reads as before. |
| `ConfigManager.FirstTemplate` | src/config.rs:63-65 | Adding to an installation without a readable configuration gives exactly one list, holding the one template, under the default settings. |

## Left out

- Filesystem access: `exists`, `read_to_string`, home-directory lookup and path construction. A directory is its set of root file names, plus one `Option` per manifest holding the parse result.
- TOML and JSON parsing and TOML serialisation. These are foreign libraries. Only their outcome enters the model: a parsed value tree, or a failure (`LoadOutcome` for the configuration).
- The manifest tree keeps strings, arrays and tables. Numbers, booleans, dates and null are a single `Scalar`, because detection only asks whether they are present.
- `save_config` and `create_default_config` are file writes and are not modelled. `AddCustomTemplate` stops at the configuration that would be saved, and a later load is modelled as `Parsed` of that configuration.
- The warnings `load_config` prints on failure, and the success message of `create_default_config`, are output only.
- `HashMap` iteration order, which Rust leaves unspecified. A map is the sequence of its entries in some given order. The key-dependency and script lines are proved only for their bounds, their filter and prefix properties, and their presence conditions. The model does not require the entry keys to be distinct.
- How `ProjectStructure` and `suggested_commands` are produced: the tree scanner, the metadata extractor and the suggestion rules. Those are not part of this model, so the model takes them as inputs.
- `src/commands.rs` and `src/main.rs`: interactive selection, command-line dispatch, and creating, listing and removing files. These are I/O plumbing.
- Prompt texts are string constants with the source's wording. No property depends on their prose.
- Behaviour the model keeps on purpose, because the code does it this way:
  - JS and Rust feature tags are pushed when a key is present, even with an empty value.
  - A `crate-type` array decides the WASM question alone, so `wasm-pack.json` is consulted only without one.
  - A string `main` with another extension makes the project not Node.js, even when it has server dependencies or `engines.node`.

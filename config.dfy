/**
 * The custom-template configuration (`ConfigManager`): the default
 * configuration, the fallback decision when loading it, the per-language
 * lookup and the in-memory step of adding a template. Reading and writing
 * the TOML file are outside the model, and only their outcome enters it.
 */
module ConfigManager {
  import opened Wrappers

  datatype CustomTemplate = CustomTemplate(
    name: string,
    description: string,
    content: string,
    language: Option<string>,
    projectType: Option<string>)

  datatype DefaultSettings = DefaultSettings(
    autoDetect: bool,
    preferTypescript: bool,
    includeTests: bool,
    includeDocs: bool)
  {
    /** `DefaultSettings::default()`: every setting on. */
    static function Default(): (s: DefaultSettings)
      ensures s.autoDetect && s.preferTypescript && s.includeTests && s.includeDocs
    {
      DefaultSettings(true, true, true, true)
    }
  }

  /** The configuration; `customTemplates` maps a language to its templates, in insertion order. */
  datatype Config = Config(
    customTemplates: map<string, seq<CustomTemplate>>,
    defaultSettings: DefaultSettings)
  {
    /** `Config::default()`: no custom templates, default settings. */
    static function Default(): (c: Config)
      ensures |c.customTemplates| == 0
      ensures c.defaultSettings == DefaultSettings.Default()
    {
      Config(map[], DefaultSettings.Default())
    }
  }

  /** How reading the configuration file ended. */
  datatype LoadOutcome =
    | Missing
    | ReadFailed
    | ParseFailed
    | Parsed(config: Config)

  /** `load_config`: the parsed configuration, or the default on every failure. */
  function LoadConfig(outcome: LoadOutcome): (c: Config)
    ensures outcome.Parsed? ==> c == outcome.config
    ensures !outcome.Parsed? ==> c == Config.Default()
  {
    match outcome
    case Missing => Config.Default()
    case ReadFailed => Config.Default()
    case ParseFailed => Config.Default()
    case Parsed(config) => config
  }

  /** The stored list for a language, or the empty list when there is none. */
  function TemplatesFor(config: Config, language: string): (ts: seq<CustomTemplate>)
    ensures language in config.customTemplates ==> ts == config.customTemplates[language]
    ensures language !in config.customTemplates ==> ts == []
  {
    if language in config.customTemplates then config.customTemplates[language] else []
  }

  /** `get_custom_templates_for_language`: load, then look up. */
  function GetCustomTemplatesForLanguage(stored: LoadOutcome, language: string): (ts: seq<CustomTemplate>)
    ensures !stored.Parsed? ==> ts == []
    ensures stored.Parsed? ==> ts == TemplatesFor(stored.config, language)
  {
    TemplatesFor(LoadConfig(stored), language)
  }

  /** The template `add_custom_template` builds from its arguments. */
  function NewTemplate(language: string, name: string, description: string, content: string): (t: CustomTemplate)
    ensures t.name == name && t.description == description && t.content == content
    ensures t.language == Some(language) && t.projectType == None
  {
    CustomTemplate(name, description, content, Some(language), None)
  }

  /** The configuration with `t` appended to the list of `language`. */
  function WithTemplate(config: Config, language: string, t: CustomTemplate): (c: Config)
    ensures c.defaultSettings == config.defaultSettings
    ensures c.customTemplates.Keys == config.customTemplates.Keys + {language}
    ensures TemplatesFor(c, language) == TemplatesFor(config, language) + [t]
    ensures forall other :: other != language ==> TemplatesFor(c, other) == TemplatesFor(config, other)
  {
    config.(customTemplates := config.customTemplates[language := TemplatesFor(config, language) + [t]])
  }

  /**
   * `add_custom_template` up to the save: load the configuration, build the
   * template, and push it onto the language's list, creating the list when
   * the language has none. The result is what gets written back.
   */
  method AddCustomTemplate(stored: LoadOutcome, language: string, name: string, description: string, content: string)
    returns (config: Config)
    ensures config == WithTemplate(LoadConfig(stored), language, NewTemplate(language, name, description, content))
    ensures config.defaultSettings == LoadConfig(stored).defaultSettings
    ensures TemplatesFor(config, language)
         == TemplatesFor(LoadConfig(stored), language) + [NewTemplate(language, name, description, content)]
    ensures forall other :: other != language ==> TemplatesFor(config, other) == TemplatesFor(LoadConfig(stored), other)
  {
    config := LoadConfig(stored);
    var template := CustomTemplate(name, description, content, Some(language), None);
    var templates := config.customTemplates;
    if language !in templates {
      templates := templates[language := []];
    }
    templates := templates[language := templates[language] + [template]];
    config := config.(customTemplates := templates);
  }

  /**
   * Once the updated configuration is saved and read back, the language's
   * list is the old one followed by the new template, and every other
   * language reads as before.
   */
  lemma AddThenGet(stored: LoadOutcome, language: string, name: string, description: string, content: string,
                   other: string)
    ensures var t := NewTemplate(language, name, description, content);
      var saved := Parsed(WithTemplate(LoadConfig(stored), language, t));
      && GetCustomTemplatesForLanguage(saved, language) == GetCustomTemplatesForLanguage(stored, language) + [t]
      && (other != language ==> GetCustomTemplatesForLanguage(saved, other) == GetCustomTemplatesForLanguage(stored, other))
  {
  }

  /** Adding to a fresh installation yields a one-template list under default settings. */
  lemma FirstTemplate(stored: LoadOutcome, language: string, name: string, description: string, content: string)
    requires !stored.Parsed?
    ensures var t := NewTemplate(language, name, description, content);
      var c := WithTemplate(LoadConfig(stored), language, t);
      && c.customTemplates == map[language := [t]]
      && c.defaultSettings == DefaultSettings.Default()
  {
    var t := NewTemplate(language, name, description, content);
    assert LoadConfig(stored).customTemplates == map[];
    assert TemplatesFor(LoadConfig(stored), language) + [t] == [t];
  }
}

/** The plugin configuration as the tools read it at call time: the
    `provider`, `search` and `extract` sections. Field names follow the
    configuration keys. The host validates the file against its schema; the
    request builders themselves accept any values, so the schema's allowed
    values appear only as the predicate `WithinSchema`. */
module PluginConfig {

  datatype ProviderConfig = ProviderConfig(jinaApiKey: string)

  datatype SearchConfig = SearchConfig(
    searchNation: string,
    searchLanguage: string,
    crawlDetails: bool,
    timeout: int,
    engineMode: string,
    removePictures: bool,
    moveLinksToEnd: bool,
    movePicsToEnd: bool,
    addPicAlt: bool)

  datatype ExtractConfig = ExtractConfig(
    timeout: int,
    followRedirect: bool,
    useCustomPrehandlerScripts: bool,
    customPrehandlerScriptsList: seq<string>,
    includeShadowDom: bool,
    includeIframes: bool,
    removePictures: bool,
    useReaderlmV2: bool,
    moveLinksToEnd: bool,
    movePicsToEnd: bool,
    addPicAlt: bool,
    optimizeForGptOss: bool,
    engineMode: string)

  datatype Config = Config(provider: ProviderConfig, search: SearchConfig, extract: ExtractConfig)

  /** The sentinel meaning "leave this search parameter out". */
  const NotSpecified: string := "not-specified"

  const NationChoices: set<string> :=
    {NotSpecified, "US", "CN", "JP", "DE", "FR", "GB", "IN", "CA", "AU", "BR", "RU", "IT", "ES"}
  const LanguageChoices: set<string> := {NotSpecified, "en", "zh-cn", "ja", "de", "fr", "es"}
  const EngineChoices: set<string> := {"default", "fast", "quality"}

  /** The values the configuration schema allows for its choice fields. */
  predicate WithinSchema(c: Config) {
    && c.search.searchNation in NationChoices
    && c.search.searchLanguage in LanguageChoices
    && c.search.engineMode in EngineChoices
    && c.extract.engineMode in EngineChoices
  }

  /** The schema's defaults; the API key has no usable default and is a
      parameter. */
  function DefaultConfig(apiKey: string): (c: Config)
    ensures WithinSchema(c)
  {
    Config(
      ProviderConfig(apiKey),
      SearchConfig("CN", "zh-cn", false, 10, "default", true, true, true, true),
      ExtractConfig(10, true, false, [], false, false, true, false, true, true, true, false, "default"))
  }
}

/** Values shared by the popup script and the background service worker:
    the stored settings record, the fixed constants both scripts declare,
    the target-language table and the translation prompt both scripts build. */
module Common {

  datatype Option<+T> = None | Some(value: T)

  /** A script-level failure carrying the message shown to the user. */
  datatype Result<+T> = Ok(value: T) | Fail(message: string)

  /** JavaScript truthiness of a value that is either absent or a string:
      `undefined`, `null` and `''` are all falsy. */
  predicate Truthy(o: Option<string>)
  {
    o.Some? && o.value != ""
  }

  /** `o || fallback` for an optional string. */
  function OrElse(o: Option<string>, fallback: string): string
  {
    if Truthy(o) then o.value else fallback
  }

  /** The record read from extension storage: `aiProvider`, `apiKey`,
      `aiModel` and `targetLang`, any of which may be unset. Both entry
      points refuse to call a vendor when `apiKey` is unset, so it is a
      plain string here. */
  datatype Settings = Settings(
    provider: Option<string>,
    apiKey: string,
    model: Option<string>,
    targetLang: Option<string>)

  const MaxTokens: nat := 4096
  const ApiTimeoutMs: nat := 60000

  /** How many characters of a page's text the page prompts embed. */
  const PageTextLimit: nat := 10000

  const AnthropicProvider := "anthropic"
  const OpenAIProvider := "openai"

  const DefaultAnthropicModel := "claude-sonnet-4-20250514"
  const DefaultOpenAIModel := "gpt-4o"

  const DefaultTargetLang := "zh-TW"

  /** The five language codes the settings page offers, with their display names. */
  const LanguageTable: map<string, string> := map[
    "zh-TW" := "繁體中文",
    "zh-CN" := "簡體中文",
    "en" := "英文",
    "ja" := "日文",
    "ko" := "韓文"
  ]

  /** getLanguageName: the display name of a listed code; any other code is
      returned as it is. */
  function LanguageName(code: string): (name: string)
    ensures code in LanguageTable ==> name == LanguageTable[code]
    ensures code !in LanguageTable ==> name == code
    ensures name == code <==> code !in LanguageTable
  {
    if code in LanguageTable && LanguageTable[code] != "" then LanguageTable[code] else code
  }

  /** The display name of the configured target language, `zh-TW` when unset. */
  function TargetLanguageName(targetLang: Option<string>): (name: string)
    ensures !Truthy(targetLang) ==> name == "繁體中文"
    ensures Truthy(targetLang) ==> name == LanguageName(targetLang.value)
  {
    LanguageName(OrElse(targetLang, DefaultTargetLang))
  }

  const TranslationLead := "請將以下內容翻譯成"

  /** The translation request: a fixed lead naming the language, a full-width
      colon, a blank line, then the text. */
  function TranslationPrompt(langName: string, text: string): (prompt: string)
    ensures |prompt| == |TranslationLead| + |langName| + 3 + |text|
    ensures TranslationLead <= prompt
    ensures prompt[|prompt| - |text|..] == text
    ensures prompt[|TranslationLead|..|TranslationLead| + |langName|] == langName
    ensures prompt[|TranslationLead| + |langName|..|prompt| - |text|] == "：\n\n"
  {
    TranslationLead + langName + "：\n\n" + text
  }
}

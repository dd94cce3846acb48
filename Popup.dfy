/** The popup script: API-key validation on save, the model selector that
    follows the provider selector, the sendToAI dispatch, and the prompts
    the popup's actions send. */
module Popup {
  import opened Common
  import opened JsString
  import opened Payload

  // ---------------------------------------------------------------------
  // validateApiKey

  datatype Validation = Valid | Invalid(message: string)

  const EmptyKeyMessage := "API Key 不能為空"
  const AnthropicKeyMessage := "Anthropic API Key 應該以 sk-ant- 開頭"
  const OpenAIKeyMessage := "OpenAI API Key 應該以 sk- 開頭"

  const AnthropicKeyPrefix := "sk-ant-"
  const OpenAIKeyPrefix := "sk-"

  /** validateApiKey: a blank key is refused for every provider; otherwise
      Anthropic keys must start with `sk-ant-`, OpenAI keys with `sk-`, and
      any other provider accepts the key. */
  function ValidateApiKey(provider: string, apiKey: string): (v: Validation)
    ensures AllWhitespace(apiKey) ==> v == Invalid(EmptyKeyMessage)
    ensures !AllWhitespace(apiKey) && provider == AnthropicProvider ==>
      (v.Valid? <==> StartsWith(apiKey, "sk-ant-"))
      && (v.Invalid? ==> v.message == AnthropicKeyMessage)
    ensures !AllWhitespace(apiKey) && provider == OpenAIProvider ==>
      (v.Valid? <==> StartsWith(apiKey, "sk-"))
      && (v.Invalid? ==> v.message == OpenAIKeyMessage)
    ensures !AllWhitespace(apiKey) && provider != AnthropicProvider && provider != OpenAIProvider ==>
      v.Valid?
  {
    TrimEmptyIffAllWhitespace(apiKey);
    if apiKey == "" || Trim(apiKey) == "" then
      Invalid(EmptyKeyMessage)
    else if provider == AnthropicProvider then
      if !StartsWith(apiKey, AnthropicKeyPrefix) then Invalid(AnthropicKeyMessage) else Valid
    else if provider == OpenAIProvider then
      if !StartsWith(apiKey, OpenAIKeyPrefix) then Invalid(OpenAIKeyMessage) else Valid
    else
      Valid
  }

  /** `sk-ant-` extends `sk-`, so a key good enough for Anthropic is good
      enough for OpenAI. */
  lemma AnthropicKeyPassesOpenAICheck(apiKey: string)
    requires ValidateApiKey(AnthropicProvider, apiKey).Valid?
    ensures ValidateApiKey(OpenAIProvider, apiKey).Valid?
  {
  }

  /** The unknown-provider branch is the most permissive: every key that
      passes some provider's check passes it. */
  lemma OtherProvidersAcceptWhatOpenAIAccepts(provider: string, apiKey: string)
    requires ValidateApiKey(OpenAIProvider, apiKey).Valid?
    requires provider != AnthropicProvider
    ensures ValidateApiKey(provider, apiKey).Valid?
  {
  }

  // ---------------------------------------------------------------------
  // updateModelVisibility

  /** The selected model belongs to the shown group: no `gpt` model while
      Anthropic is selected, no `claude` model otherwise. */
  predicate ModelFits(provider: string, model: string)
  {
    if provider == AnthropicProvider then !StartsWith(model, "gpt") else !StartsWith(model, "claude")
  }

  /** The model the selector ends on: unchanged when it already fits the
      provider, otherwise the first model of the provider's group. */
  function CorrectedModel(provider: string, model: string): (m: string)
    ensures ModelFits(provider, m)
    ensures ModelFits(provider, model) ==> m == model
    ensures !ModelFits(provider, model) ==>
      m == if provider == AnthropicProvider then DefaultAnthropicModel else DefaultOpenAIModel
  {
    assert DefaultAnthropicModel[0] == 'c' && DefaultOpenAIModel[0] == 'g';
    if provider == AnthropicProvider then
      if StartsWith(model, "gpt") then DefaultAnthropicModel else model
    else
      if StartsWith(model, "claude") then DefaultOpenAIModel else model
  }

  /** Correcting twice changes nothing more than correcting once. */
  lemma CorrectionIdempotent(provider: string, model: string)
    ensures CorrectedModel(provider, CorrectedModel(provider, model)) == CorrectedModel(provider, model)
  {
  }

  /** The settings form's provider selector, model selector and the two
      model groups whose visibility follows the provider. */
  class SettingsForm {
    var provider: string
    var model: string
    var anthropicModelsShown: bool
    var openaiModelsShown: bool

    /** The form as loadSettings leaves it: a stored provider or model
        replaces the selector's page default only when it is non-empty,
        then the visibility rule is applied. */
    constructor (pageProvider: string, pageModel: string, stored: Settings)
      ensures provider == if Truthy(stored.provider) then stored.provider.value else pageProvider
      ensures model == CorrectedModel(provider, if Truthy(stored.model) then stored.model.value else pageModel)
      ensures anthropicModelsShown == (provider == AnthropicProvider)
      ensures openaiModelsShown == !anthropicModelsShown
    {
      this.provider := pageProvider;
      this.model := pageModel;
      if Truthy(stored.provider) {
        this.provider := stored.provider.value;
      }
      if Truthy(stored.model) {
        this.model := stored.model.value;
      }
      this.anthropicModelsShown := true;
      this.openaiModelsShown := true;
      new;
      UpdateModelVisibility();
    }

    /** updateModelVisibility: show the provider's model group, hide the
        other, and replace a model of the other vendor. */
    method UpdateModelVisibility()
      modifies this
      ensures provider == old(provider)
      ensures model == CorrectedModel(old(provider), old(model))
      ensures ModelFits(provider, model)
      ensures anthropicModelsShown == (provider == AnthropicProvider)
      ensures openaiModelsShown == !anthropicModelsShown
    {
      if provider == AnthropicProvider {
        anthropicModelsShown := true;
        openaiModelsShown := false;
        if StartsWith(model, "gpt") {
          model := DefaultAnthropicModel;
        }
      } else {
        anthropicModelsShown := false;
        openaiModelsShown := true;
        if StartsWith(model, "claude") {
          model := DefaultOpenAIModel;
        }
      }
    }

    /** The provider selector's `change` event. */
    method ChangeProvider(p: string)
      modifies this
      ensures provider == p
      ensures model == CorrectedModel(p, old(model))
      ensures anthropicModelsShown == (p == AnthropicProvider)
      ensures openaiModelsShown == !anthropicModelsShown
    {
      provider := p;
      UpdateModelVisibility();
    }
  }

  // ---------------------------------------------------------------------
  // sendToAI

  /** sendToAI's choice: Anthropic only for the exact provider string
      `anthropic`; everything else, an unset provider included, goes to
      OpenAI. The stored model is passed on as it is, unset or not. */
  function Route(settings: Settings): (d: Dispatch)
    ensures d.vendor == Anthropic <==> settings.provider == Some(AnthropicProvider)
    ensures settings.provider.None? ==> d.vendor == OpenAI
    ensures d.model == settings.model
  {
    if settings.provider == Some(AnthropicProvider) then Dispatch(Anthropic, settings.model)
    else Dispatch(OpenAI, settings.model)
  }

  /** sendToAI: one call of the chosen adapter. */
  method SendToAI(settings: Settings, prompt: string, image: Option<string>, reply: Reply)
    returns (req: ApiRequest, outcome: Outcome)
    ensures var d := Route(settings);
      && req == VendorRequest(d.vendor, settings.apiKey, settings.model, ContentFor(d.vendor, prompt, image))
      && outcome == Normalize(d.vendor, reply)
  {
    var d := Route(settings);
    req, outcome := CallVendor(d.vendor, settings.apiKey, d.model, prompt, image, reply);
  }

  // ---------------------------------------------------------------------
  // Prompts of the popup's actions.

  const DefaultScanPrompt := "請分析這張截圖中的內容，描述你看到的重要資訊。"
  const EmptyCustomPromptMessage := "請輸入指令"

  /** scanPage: the trimmed custom prompt, or the fixed screenshot prompt
      when the custom prompt is blank. */
  function ScanPrompt(customPrompt: string): (p: string)
    ensures AllWhitespace(customPrompt) ==> p == DefaultScanPrompt
    ensures !AllWhitespace(customPrompt) ==>
      p == Trim(customPrompt) && !IsJsWhitespace(p[0]) && !IsJsWhitespace(p[|p| - 1])
  {
    TrimEmptyIffAllWhitespace(customPrompt);
    TrimIsCore(customPrompt);
    var t := Trim(customPrompt);
    if t != "" then t else DefaultScanPrompt
  }

  /** sendCustomPrompt: a blank prompt is refused; otherwise it is sent
      trimmed. */
  function CustomPrompt(customPrompt: string): (r: Result<string>)
    ensures r.Fail? <==> AllWhitespace(customPrompt)
    ensures r.Fail? ==> r.message == EmptyCustomPromptMessage
    ensures r.Ok? ==> r.value == Trim(customPrompt) && r.value != []
  {
    TrimEmptyIffAllWhitespace(customPrompt);
    var t := Trim(customPrompt);
    if t == "" then Fail(EmptyCustomPromptMessage) else Ok(t)
  }

  /** What the content script reports about a YouTube video. */
  datatype VideoInfo = VideoInfo(
    title: Option<string>,
    channel: string,
    description: Option<string>,
    transcript: Option<string>)

  const YoutubeWatchPath := "youtube.com/watch"
  const NotVideoPageMessage := "請在 YouTube 影片頁面使用此功能"
  const NoVideoInfoMessage := "無法取得影片資訊，請確認頁面已完全載入"

  function VideoHead(title: string, channel: string): string
  {
    "請總結以下 YouTube 影片的內容：\n\n標題：" + title + "\n頻道：" + channel + "\n"
  }

  const DescriptionLabel := "\n描述："
  const TranscriptLabel := "\n\n字幕內容：\n"

  /** A labelled part of the video prompt, left out when its value is empty. */
  function OptionalPart(heading: string, value: Option<string>): (s: string)
    ensures !Truthy(value) ==> s == []
    ensures Truthy(value) ==> heading <= s && s[|heading|..] == value.value
  {
    if Truthy(value) then heading + value.value else ""
  }

  const VideoTail := "\n\n請提供：\n1. 影片主要內容摘要\n2. 重點整理（條列式）\n3. 關鍵結論或重點"

  /** The video summary prompt: the head naming title and channel, the
      description and the transcript each only when non-empty, in that
      order, and the fixed list of requests last. */
  function VideoPrompt(title: string, info: VideoInfo): (p: string)
    ensures VideoHead(title, info.channel) <= p
    ensures |p| >= |VideoTail| && p[|p| - |VideoTail|..] == VideoTail
    ensures |p| >= |VideoHead(title, info.channel)| + |VideoTail|
    ensures p[|VideoHead(title, info.channel)|..|p| - |VideoTail|]
      == OptionalPart(DescriptionLabel, info.description) + OptionalPart(TranscriptLabel, info.transcript)
    ensures !Truthy(info.description) && !Truthy(info.transcript) ==>
      p == VideoHead(title, info.channel) + VideoTail
  {
    var head := VideoHead(title, info.channel);
    var middle := OptionalPart(DescriptionLabel, info.description) + OptionalPart(TranscriptLabel, info.transcript);
    var p := head + middle + VideoTail;
    assert p[..|head|] == head;
    assert p[|p| - |VideoTail|..] == VideoTail;
    assert p[|head|..|p| - |VideoTail|] == middle;
    p
  }

  /** summarizeVideo: refuses a tab that is not a YouTube watch page and a
      video whose title could not be read, and otherwise builds the prompt
      piece by piece. */
  method SummarizeVideoPrompt(url: string, info: Option<VideoInfo>) returns (r: Result<string>)
    ensures !Includes(url, YoutubeWatchPath) ==> r == Fail(NotVideoPageMessage)
    ensures Includes(url, YoutubeWatchPath) && (info.None? || !Truthy(info.value.title)) ==>
      r == Fail(NoVideoInfoMessage)
    ensures Includes(url, YoutubeWatchPath) && info.Some? && Truthy(info.value.title) ==>
      r == Ok(VideoPrompt(info.value.title.value, info.value))
  {
    if !Includes(url, YoutubeWatchPath) {
      return Fail(NotVideoPageMessage);
    }
    if info.None? || !Truthy(info.value.title) {
      return Fail(NoVideoInfoMessage);
    }
    var v := info.value;
    var prompt := VideoHead(v.title.value, v.channel);
    ghost var head := prompt;
    ghost var description := OptionalPart(DescriptionLabel, v.description);
    ghost var transcript := OptionalPart(TranscriptLabel, v.transcript);
    if Truthy(v.description) {
      prompt := prompt + DescriptionLabel + v.description.value;
      assert prompt == head + description;
    } else {
      assert prompt == head + description;
    }
    ghost var withDescription := prompt;
    if Truthy(v.transcript) {
      prompt := prompt + TranscriptLabel + v.transcript.value;
      assert prompt == withDescription + transcript;
    } else {
      assert prompt == withDescription + transcript;
    }
    prompt := prompt + VideoTail;
    assert prompt == head + (description + transcript) + VideoTail;
    r := Ok(prompt);
  }

  const NoPageContentMessage := "無法取得頁面內容"
  const NoSelectionMessage := "請先選取要翻譯的文字"

  /** translatePage: refuses a page without text; otherwise asks for a
      translation of the first 10000 characters of the page, or of the whole
      text when it is shorter. */
  function TranslatePagePrompt(pageText: Option<string>, targetLang: Option<string>): (r: Result<string>)
    ensures !Truthy(pageText) ==> r == Fail(NoPageContentMessage)
    ensures Truthy(pageText) ==> r.Ok?
    ensures r.Ok? ==>
      var lead := TranslationPrompt(TargetLanguageName(targetLang), "");
      && |lead| <= |r.value| <= |lead| + PageTextLimit
      && r.value[..|lead|] == lead
      && r.value[|lead|..] <= pageText.value
    ensures Truthy(pageText) && |pageText.value| <= PageTextLimit ==>
      r == Ok(TranslationPrompt(TargetLanguageName(targetLang), pageText.value))
    ensures Truthy(pageText) && |pageText.value| > PageTextLimit ==>
      var lead := TranslationPrompt(TargetLanguageName(targetLang), "");
      && |r.value| == |lead| + PageTextLimit
      && r.value[|lead|..] == pageText.value[..PageTextLimit]
  {
    if !Truthy(pageText) then
      Fail(NoPageContentMessage)
    else
      var lang := TargetLanguageName(targetLang);
      var excerpt := Substring0(pageText.value, PageTextLimit);
      var p := TranslationPrompt(lang, excerpt);
      assert p[..|TranslationPrompt(lang, "")|] == TranslationPrompt(lang, "");
      Ok(p)
  }

  /** translateSelection: refuses an empty selection; otherwise asks for a
      translation of the whole selection. */
  function TranslateSelectionPrompt(selection: Option<string>, targetLang: Option<string>): (r: Result<string>)
    ensures !Truthy(selection) ==> r == Fail(NoSelectionMessage)
    ensures Truthy(selection) ==> r == Ok(TranslationPrompt(TargetLanguageName(targetLang), selection.value))
  {
    if !Truthy(selection) then Fail(NoSelectionMessage)
    else Ok(TranslationPrompt(TargetLanguageName(targetLang), selection.value))
  }
}

/** The popup's sendToAI and the background's callAI choose a vendor by
    different rules. These lemmas put the two rules side by side. */
module CrossPath {
  import opened Common
  import opened Payload
  import Popup
  import Background

  /** With no provider stored, the popup calls OpenAI and the background
      calls Anthropic; the popup also sends no model while the background
      sends Anthropic's default model. */
  lemma UnsetProviderDiverges(settings: Settings)
    requires settings.provider.None? && settings.model.None?
    ensures Popup.Route(settings) == Dispatch(OpenAI, None)
    ensures Background.Route(settings) == Dispatch(Anthropic, Some(DefaultAnthropicModel))
  {
  }

  /** With a provider and a non-empty model stored, both paths call the
      same adapter with the same model. */
  lemma SetProviderAgrees(settings: Settings)
    requires settings.provider.Some? && Truthy(settings.model)
    ensures Popup.Route(settings) == Background.Route(settings)
  {
  }

  /** Both scripts ask for a selection's translation with the same prompt. */
  lemma TranslationPromptsAgree(settings: Settings, selection: string)
    requires selection != ""
    ensures Popup.TranslateSelectionPrompt(Some(selection), settings.targetLang)
      == Ok(Background.TranslateSelectionPrompt(settings, selection))
  {
  }
}

# AI Assistant extension: request shaping, dispatch and validation rules

A Dafny model of the deterministic core of a browser extension that sends
selected text, page text, video information or screenshots to Anthropic or
OpenAI and shows the answer. The model covers:

- the two vendor adapters `callAnthropicAPI` and `callOpenAIAPI`:
  - the `content` array each one builds;
  - the removal of the `data:image/<word>;base64,` prefix for Anthropic;
  - the request each one sends (endpoint, auth headers, one `user` message, `max_tokens` 4096, the 60 s abort deadline);
  - how the vendor's reply becomes the returned text or the error thrown to the caller.
- the two dispatchers: `sendToAI` in the popup and `callAI` in the background worker, including where they disagree;
- `validateApiKey`, and the model-selector correction in `updateModelVisibility`;
- `escapeHtml`, `getLanguageName`, and the prompt templates of the popup actions and the context-menu handlers.

Files:

- `JsString.dfy`: the JavaScript string built-ins the code relies on (`trim`, `startsWith`, `includes`, `substring(0, n)`, number-to-decimal).
- `Common.dfy`: the stored settings record, shared constants, the language table, and the translation prompt.
- `Payload.dfy`: the adapters. popup.js and background.js hold identical copies of `callAnthropicAPI` (popup.js:402-463, background.js:146-206) and `callOpenAIAPI` (popup.js:466-521, background.js:209-262). Each is modelled once, and the table below cites the popup copy.
- `Popup.dfy`, `Background.dfy`: the rules specific to each script.
- `CrossPath.dfy`: the two dispatchers compared.

The network is a parameter. `Payload.Reply` is how `fetch` settled:

- `Aborted`: the deadline fired first;
- `FetchFailed`: any other rejection, with its message;
- `Responded`: a status and a parsed body.

The adapter methods take that reply along with their JavaScript arguments. `response.ok` is derived from the status (200 to 299). JavaScript falsiness is written out where the code tests a value: an empty image argument (`if (imageBase64)`), an empty stored model in the background (`aiModel || …` in `callAI`), an empty target language (`targetLang || 'zh-TW'`), an empty vendor error message (`error.error?.message || …`) and an empty stored provider or model in `loadSettings` are each treated exactly like an absent one. The popup's `sendToAI` passes the stored model on untested, so there an empty model (`Some("")`) and a missing one (`None`) stay distinct.

Three facts about the code shape the model:

- There are two adapters, Anthropic and OpenAI; there is no Gemini adapter.
- The adapters have no separate error kinds for network failures and malformed replies. They throw `Error`s they build themselves (the timeout message, or the vendor message / status fallback) and re-throw everything else unchanged. The model keeps that split: `Thrown` versus `Propagated`.
- An unset provider goes to OpenAI in the popup and to Anthropic in the background. `CrossPath.UnsetProviderDiverges` states both.

## Model

| member | source | states |
|---|---|---|
| `JsString.TrimEmptyIffAllWhitespace` | popup.js:133 | `apiKey.trim() === ''` holds exactly when every character of the key is ECMAScript whitespace or a line terminator |
| `JsString.TrimStart` | popup.js:241 | the leading-whitespace cut used by `trim`: a suffix of the input, everything dropped is whitespace, and the result does not start with whitespace |
| `JsString.TrimEnd` | popup.js:241 | the trailing-whitespace cut used by `trim`: a prefix of the input, everything dropped is whitespace, and the result does not end with whitespace |
| `JsString.TrimIsCore` | popup.js:371 | a trimmed string is a contiguous slice of the input, with no whitespace at either end |
| `JsString.Substring0` | popup.js:325 | `substring(0, n)` is a prefix of length min(len, n), and the whole string when the string is short enough |
| `JsString.DecimalString` | popup.js:451 | `${response.status}` is non-empty and all digits, with no leading zero except for 0 |
| `JsString.DecimalRoundTrip` | popup.js:451 | reading the rendered status back as a number gives the status |
| `Common.LanguageName` | popup.js:524-533 | the five listed codes map to their fixed names; any other code is returned unchanged; the result equals the code exactly when the code is unlisted |
| `Common.TargetLanguageName` | popup.js:321 | an unset or empty target language means `zh-TW`, whose name is 繁體中文 |
| `Common.TranslationPrompt` | popup.js:323-325 | the translation prompt is the fixed lead, the language name, a full-width colon and a blank line, then the text verbatim |
| `Payload.WordRun` | popup.js:407 | the greedy `\w+` of the pattern: the longest run of word characters at the start, stopping at the first other character |
| `Payload.StripDataUrlPrefix` | popup.js:407 | the stripped data is a suffix of the image argument, and a string not starting with `data:image/` is passed through |
| `Payload.StripDataUrlPrefixSpec` | popup.js:407 | the anchored regex `^data:image\/\w+;base64,` as a replace: either one matching prefix is removed and the rest is the untouched suffix, or no prefix of the input matches and it is returned unchanged |
| `Payload.StripDataUrl` | background.js:150 | stripping `data:image/<word>;base64,` + payload gives exactly the payload, even when the payload starts with another such prefix (removed once) |
| `Payload.AnthropicContent` | popup.js:405-421 | Anthropic content is the text block alone without an image; with an image, the PNG image block (prefix-stripped data) comes first and the text block last |
| `Payload.OpenAIContent` | popup.js:469-481 | OpenAI content is the text item first; with an image, the unmodified data URL is appended after it |
| `Payload.BuildAnthropicContent` | popup.js:403-421 | the array grown by successive `push` calls is exactly the Anthropic content |
| `Payload.BuildOpenAIContent` | popup.js:467-481 | the array grown by successive `push` calls is exactly the OpenAI content |
| `Payload.VendorContentsAgree` | background.js:149-222 | for a well-formed data URL, both vendors get the prompt as their only text block; Anthropic gets the bare payload before the text, OpenAI gets the whole URL after it |
| `Payload.VendorHeaders` | popup.js:430-435 | exactly four headers for Anthropic (JSON content type, the key in `x-api-key`, `anthropic-version`, the browser-access opt-in; no `Authorization`) and exactly two for OpenAI (JSON content type, the key as `Bearer` in `Authorization`; no `x-api-key`) |
| `Payload.VendorRequest` | popup.js:424-445 | one `user` message holding the content, `max_tokens` 4096, the model as given, the 60000 ms abort deadline, the vendor's endpoint, and exactly the vendor's headers; the key goes in `x-api-key` (with `anthropic-version: 2023-06-01`) for Anthropic and in `Authorization: Bearer` for OpenAI, which sends no `x-api-key` |
| `Payload.VendorText` | popup.js:454-455 | the answer is read from the vendor's own success path (`content[0].text` for Anthropic, `choices[0].message.content` for OpenAI), and an unreadable body has none |
| `Payload.HttpErrorMessage` | popup.js:451 | the vendor's non-empty `error.message` if present, otherwise `API 錯誤：` followed by the status; never empty |
| `Payload.FallbackMessageIdentifiesStatus` | background.js:194 | two different statuses never produce the same fallback message |
| `Payload.Normalize` | popup.js:447-462 | a text is returned exactly when the reply is 2xx and carries the vendor's field, and it is that field; abort gives the timeout message; a non-2xx JSON reply gives the vendor message or the status fallback; an unreadable body, a 2xx body without the vendor's field and any other fetch failure are re-thrown unchanged; a thrown message is never empty |
| `Payload.ErrorsAreVendorIndependent` | background.js:190-205 | on every reply other than a 2xx response, both adapters produce the same outcome |
| `Payload.VendorReadsOwnField` | background.js:198 | Anthropic answers from `content[0].text` only and OpenAI from `choices[0].message.content` only; the other vendor's field alone is a missing-path failure |
| `Payload.CallAnthropicAPI` | popup.js:402-463 | sends the Anthropic request built from the Anthropic content, and settles with the normalised outcome of the reply |
| `Payload.CallOpenAIAPI` | popup.js:466-521 | sends the OpenAI request built from the OpenAI content, and settles with the normalised outcome of the reply |
| `Payload.CallVendor` | background.js:138-142 | calls the adapter of the chosen vendor, with that vendor's content |
| `Popup.ValidateApiKey` | popup.js:132-148 | a blank key is refused for every provider with the "cannot be empty" message; otherwise an `anthropic` key is valid iff it starts with `sk-ant-`, an `openai` key iff it starts with `sk-`, each refusal with its own message; any other provider accepts every non-blank key |
| `Popup.AnthropicKeyPassesOpenAICheck` | popup.js:137-145 | every key accepted for `anthropic` is accepted for `openai` |
| `Popup.OtherProvidersAcceptWhatOpenAIAccepts` | popup.js:141-147 | every key accepted for `openai` is accepted for any provider other than `anthropic` |
| `Popup.CorrectedModel` | popup.js:107-121 | afterwards, no `gpt` model is selected under `anthropic` and no `claude` model under any other provider; a fitting model is unchanged; a non-fitting one becomes `claude-sonnet-4-20250514` or `gpt-4o` respectively |
| `Popup.CorrectionIdempotent` | popup.js:107-121 | applying the correction a second time changes nothing |
| `Popup.SettingsForm.constructor` | popup.js:59-64 | the provider and model the selectors hold after loading: a stored value replaces the page default only when it is non-empty, the model is then corrected for the provider, and only that provider's model group is shown |
| `Popup.SettingsForm.UpdateModelVisibility` | popup.js:102-122 | the provider is unchanged; the model becomes the corrected model; exactly the provider's model group is shown |
| `Popup.SettingsForm.ChangeProvider` | popup.js:82 | after the provider selector changes, the model fits the new provider |
| `Popup.Route` | popup.js:391-399 | Anthropic iff the provider is exactly `anthropic`; an unset provider goes to OpenAI; the stored model is passed through, unset or not |
| `Popup.SendToAI` | popup.js:391-399 | the request and outcome are those of the routed adapter, called with the stored model |
| `Popup.ScanPrompt` | popup.js:241-242 | a blank custom prompt gives the fixed screenshot prompt; otherwise the custom prompt trimmed, with no whitespace at either end |
| `Popup.CustomPrompt` | popup.js:371-375 | refused with `請輸入指令` exactly when the prompt is blank; otherwise sent trimmed and non-empty |
| `Popup.OptionalPart` | popup.js:282-288 | the description and transcript parts are empty when their value is empty or missing, and otherwise are their heading followed by the value verbatim |
| `Popup.VideoPrompt` | popup.js:276-293 | the summary prompt starts with the title/channel head and ends with the fixed list of requests; between them come exactly the description part and then the transcript part, each present only when its value is non-empty |
| `Popup.SummarizeVideoPrompt` | popup.js:261-293 | refused when the URL does not contain `youtube.com/watch`, refused when the title is missing, otherwise the video prompt built by appending the parts that are present |
| `Popup.TranslatePagePrompt` | popup.js:313-325 | refused when the page text is empty; otherwise the translation lead followed by the page text, whole when it has at most 10000 characters and exactly its first 10000 characters otherwise |
| `Popup.TranslateSelectionPrompt` | popup.js:345-357 | refused when the selection is empty; otherwise the translation prompt for the whole selection |
| `Background.EntityOf` | background.js:10-14 | each of `&` `<` `>` `"` `'` becomes an entity that starts with `&` and ends with `;`; every other character is kept; no entity holds a markup character |
| `Background.EscapeEachChar` | background.js:8-15 | the character-wise reference: no `<` `>` `"` `'` in the result, never shorter than the input, identity on text without special characters |
| `Background.ReplaceStagesOneChar` | background.js:10-14 | on one character, the five replacements in order give exactly that character's entity, because `&` goes first and later steps never re-escape an entity |
| `Background.ReplaceStagesIsCharwise` | background.js:9-14 | the chain of five global replacements equals the character-wise reference |
| `Background.EscapeHtml` | background.js:8-15 | the escaped text is the character-wise escape of the input; it contains none of `<` `>` `"` `'`; it is never shorter than the input; it equals the input when the input has none of the five special characters |
| `Background.UnescapeEscapeRoundTrip` | background.js:8-15 | decoding the five entities recovers the original text |
| `Background.EscapeHtmlInjective` | background.js:8-15 | different texts escape to different texts |
| `Background.Route` | background.js:135-143 | Anthropic iff the provider is `anthropic` or unset; the model is always set and non-empty: the stored one if non-empty, otherwise the chosen vendor's default |
| `Background.CallAI` | background.js:135-143 | the request and outcome are those of the routed adapter with the defaulted model, so the request always names a model |
| `Background.TranslateSelectionPrompt` | background.js:76-78 | the selection is embedded whole, translated into the configured language, Traditional Chinese when none is set |
| `Background.ExplainSelectionPrompt` | background.js:89-90 | the fixed explanation lead followed by the selection verbatim |
| `Background.SummarizePagePrompt` | background.js:122-125 | the title lead followed by a prefix of the page text of at most 10000 characters: the whole text when it fits, exactly 10000 characters otherwise |
| `CrossPath.UnsetProviderDiverges` | background.js:138-139 | with nothing stored, the popup calls OpenAI with no model, while the background calls Anthropic with `claude-sonnet-4-20250514` |
| `CrossPath.SetProviderAgrees` | popup.js:394-398 | with a provider and a non-empty model stored, both dispatchers pick the same adapter and model |
| `CrossPath.TranslationPromptsAgree` | background.js:77-78 | the popup and the background build the same prompt for the same selection and target language |

## Left out

- `fetch`, `AbortController` and the `setTimeout`/`clearTimeout` deadline race: asynchronous transport and timers. The reply is a parameter, and the deadline firing first is the `Aborted` reply. The timer being cleared on every path is not modelled.
- Every `chrome.*` call: storage, tabs, context menus, scripting, runtime messaging, `openPopup`. These are browser I/O. So `loadSettings` is only represented by the form's constructor, and the handler `switch` in the context-menu listener is not modelled.
- DOM work: panel navigation, `showStatus`, `showLoading`, `showResult`, clipboard copy, `toggleApiKeyVisibility`, and the panel injected by `showResultInPage`. `showResultInPage` passes `escapeHtml`'s output to `textContent`; only `escapeHtml` itself is modelled.
- `saveSettings` (trims the key, validates it, stores the settings) and `checkSettings` (refuses to call when no key is stored): storage I/O around `validateApiKey`. Both dispatchers therefore take the key as a plain string.
- `handleAnalyzeImage`: the image download and `blobToBase64` are I/O. Its fixed prompt is the constant `Background.AnalyzeImagePrompt`.
- A stored provider or model that is not one of a selector's options: the browser then leaves the selector without a value, while the model keeps the stored string.
- content.js is not part of this model: DOM scraping. Its outputs are inputs here (page text, selection, `VideoInfo`).
- JSON serialisation of the request and parsing of the response. Requests and replies are datatypes, and a body is reduced to the three fields the adapters read.
- Payload.Normalize: an ok body whose `content[0]` or `choices[0].message` exists but lacks the final field makes the JavaScript return `undefined` rather than throw. The model folds this into the `TextPathMissing` failure. A vendor `error.message` that is not a string, and a JSON `null` body, are not modelled.
- Common.LanguageName: a code naming an inherited `Object.prototype` member (`toString`, `constructor`, …) would return that member in JavaScript. The model treats it as an unknown code and returns the code itself.
- JsString.Substring0: counts characters, while JavaScript counts UTF-16 code units, so a cut inside a surrogate pair is not modelled.
- Background.EscapeHtml: it and its lemmas take strings only, while `escapeHtml` first applies `String(text)` to an argument that may not be a string.

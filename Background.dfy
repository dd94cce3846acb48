/** The background service worker: HTML escaping of what it injects into
    the page, the callAI dispatch with its default models, and the prompts
    of the four context-menu handlers. */
module Background {
  import opened Common
  import opened JsString
  import opened Payload

  // ---------------------------------------------------------------------
  // escapeHtml

  /** `s.replace(/c/g, entity)`: every occurrence of c replaced. */
  function ReplaceAll(s: string, c: char, entity: string): (r: string)
  {
    if s == [] then [] else (if s[0] == c then entity else [s[0]]) + ReplaceAll(s[1..], c, entity)
  }

  /** The five global replacements of escapeHtml applied in turn, `&` first. */
  function ReplaceStages(text: string): string
  {
    ReplaceAll(ReplaceAll(ReplaceAll(ReplaceAll(ReplaceAll(
      text, '&', "&amp;"), '<', "&lt;"), '>', "&gt;"), '"', "&quot;"), '\'', "&#039;")
  }

  /** The five characters escapeHtml rewrites. */
  predicate IsSpecial(c: char)
  {
    c == '&' || c == '<' || c == '>' || c == '"' || c == '\''
  }

  /** The characters that would be read as markup or end an attribute. */
  predicate IsMarkup(c: char)
  {
    c == '<' || c == '>' || c == '"' || c == '\''
  }

  /** The entity each special character becomes; any other character is kept. */
  function EntityOf(c: char): (e: string)
    ensures |e| >= 1
    ensures IsSpecial(c) ==> e[0] == '&' && e[|e| - 1] == ';'
    ensures !IsSpecial(c) ==> e == [c]
    ensures forall i :: 0 <= i < |e| ==> !IsMarkup(e[i])
  {
    match c
    case '&' => "&amp;"
    case '<' => "&lt;"
    case '>' => "&gt;"
    case '"' => "&quot;"
    case '\'' => "&#039;"
    case _ => [c]
  }

  /** The reference definition: each character replaced by its entity,
      independently of its neighbours. No markup character survives, the
      text never shrinks, and text free of special characters is kept. */
  function EscapeEachChar(s: string): (r: string)
    ensures forall i :: 0 <= i < |r| ==> !IsMarkup(r[i])
    ensures |r| >= |s|
    ensures (forall i :: 0 <= i < |s| ==> !IsSpecial(s[i])) ==> r == s
  {
    if s == [] then []
    else
      var e, rest := EntityOf(s[0]), EscapeEachChar(s[1..]);
      assert forall i :: |e| <= i < |e| + |rest| ==> (e + rest)[i] == rest[i - |e|];
      e + rest
  }

  lemma {:induction false} ReplaceAllAppend(a: string, b: string, c: char, entity: string)
    ensures ReplaceAll(a + b, c, entity) == ReplaceAll(a, c, entity) + ReplaceAll(b, c, entity)
  {
    if a == [] {
      assert a + b == b;
    } else {
      assert (a + b)[1..] == a[1..] + b;
      ReplaceAllAppend(a[1..], b, c, entity);
    }
  }

  lemma {:induction false} ReplaceAllAbsent(s: string, c: char, entity: string)
    requires c !in s
    ensures ReplaceAll(s, c, entity) == s
  {
    if s != [] {
      ReplaceAllAbsent(s[1..], c, entity);
    }
  }

  lemma ReplaceAllOne(x: char, c: char, entity: string)
    ensures ReplaceAll([x], c, entity) == if x == c then entity else [x]
  {
  }

  lemma ReplaceStagesAppend(a: string, b: string)
    ensures ReplaceStages(a + b) == ReplaceStages(a) + ReplaceStages(b)
  {
    var a1, b1 := ReplaceAll(a, '&', "&amp;"), ReplaceAll(b, '&', "&amp;");
    ReplaceAllAppend(a, b, '&', "&amp;");
    var a2, b2 := ReplaceAll(a1, '<', "&lt;"), ReplaceAll(b1, '<', "&lt;");
    ReplaceAllAppend(a1, b1, '<', "&lt;");
    var a3, b3 := ReplaceAll(a2, '>', "&gt;"), ReplaceAll(b2, '>', "&gt;");
    ReplaceAllAppend(a2, b2, '>', "&gt;");
    var a4, b4 := ReplaceAll(a3, '"', "&quot;"), ReplaceAll(b3, '"', "&quot;");
    ReplaceAllAppend(a3, b3, '"', "&quot;");
    ReplaceAllAppend(a4, b4, '\'', "&#039;");
  }

  /** On one character the chain of replacements produces its entity: the
      entities introduced by earlier steps hold none of the characters
      later steps look for, so nothing is escaped twice. */
  lemma ReplaceStagesOneChar(c: char)
    ensures ReplaceStages([c]) == EntityOf(c)
  {
    ReplaceAllOne(c, '&', "&amp;");
    if c == '&' {
      EntityKeptByLaterStages("&amp;", 1);
    } else {
      ReplaceAllOne(c, '<', "&lt;");
      if c == '<' {
        EntityKeptByLaterStages("&lt;", 2);
      } else {
        ReplaceAllOne(c, '>', "&gt;");
        if c == '>' {
          EntityKeptByLaterStages("&gt;", 3);
        } else {
          ReplaceAllOne(c, '"', "&quot;");
          if c == '"' {
            EntityKeptByLaterStages("&quot;", 4);
          } else {
            ReplaceAllOne(c, '\'', "&#039;");
          }
        }
      }
    }
  }

  /** The stages of escapeHtml after the first `from` of them. */
  function LaterStages(s: string, from: nat): string
  {
    var s2 := if from < 2 then ReplaceAll(s, '<', "&lt;") else s;
    var s3 := if from < 3 then ReplaceAll(s2, '>', "&gt;") else s2;
    var s4 := if from < 4 then ReplaceAll(s3, '"', "&quot;") else s3;
    ReplaceAll(s4, '\'', "&#039;")
  }

  /** An entity holds none of the characters the later stages replace. */
  lemma EntityKeptByLaterStages(e: string, from: nat)
    requires 1 <= from <= 4
    requires '<' !in e && '>' !in e && '"' !in e && '\'' !in e
    ensures LaterStages(e, from) == e
  {
    ReplaceAllAbsent(e, '<', "&lt;");
    ReplaceAllAbsent(e, '>', "&gt;");
    ReplaceAllAbsent(e, '"', "&quot;");
    ReplaceAllAbsent(e, '\'', "&#039;");
  }

  /** The chain of replacements is character-wise: its result is exactly
      the reference definition. */
  lemma {:induction false} ReplaceStagesIsCharwise(s: string)
    ensures ReplaceStages(s) == EscapeEachChar(s)
  {
    if s != [] {
      assert s == [s[0]] + s[1..];
      ReplaceStagesAppend([s[0]], s[1..]);
      ReplaceStagesOneChar(s[0]);
      ReplaceStagesIsCharwise(s[1..]);
    }
  }

  /** escapeHtml: the five replacements in turn, which escape each special
      character to its entity exactly once. The result holds none of `<`,
      `>`, `"`, `'`, is never shorter than the text, and is the text itself
      when the text has no special character. */
  function EscapeHtml(text: string): (r: string)
    ensures r == EscapeEachChar(text)
    ensures forall i :: 0 <= i < |r| ==> !IsMarkup(r[i])
    ensures |r| >= |text|
    ensures (forall i :: 0 <= i < |text| ==> !IsSpecial(text[i])) ==> r == text
  {
    ReplaceStagesIsCharwise(text);
    ReplaceStages(text)
  }

  /** Decoding of the five entities escapeHtml produces. */
  function UnescapeHtml(s: string): string
  {
    if s == [] then []
    else if "&amp;" <= s then "&" + UnescapeHtml(s[5..])
    else if "&lt;" <= s then "<" + UnescapeHtml(s[4..])
    else if "&gt;" <= s then ">" + UnescapeHtml(s[4..])
    else if "&quot;" <= s then "\"" + UnescapeHtml(s[6..])
    else if "&#039;" <= s then "'" + UnescapeHtml(s[6..])
    else [s[0]] + UnescapeHtml(s[1..])
  }

  lemma UnescapeEntityThen(c: char, rest: string)
    ensures UnescapeHtml(EntityOf(c) + rest) == [c] + UnescapeHtml(rest)
  {
    var s := EntityOf(c) + rest;
    assert s[|EntityOf(c)|..] == rest;
    if c == '&' {
      assert "&amp;" <= s;
    } else if c == '<' {
      assert s[1] == 'l';
      assert "&lt;" <= s;
    } else if c == '>' {
      assert s[1] == 'g';
      assert "&gt;" <= s;
    } else if c == '"' {
      assert s[1] == 'q';
      assert "&quot;" <= s;
    } else if c == '\'' {
      assert s[1] == '#';
      assert "&#039;" <= s;
    } else {
      assert s[0] == c;
    }
  }

  /** Decoding undoes escaping. */
  lemma {:induction false} UnescapeEscapeRoundTrip(s: string)
    ensures UnescapeHtml(EscapeHtml(s)) == s
  {
    if s == [] {
    } else {
      assert EscapeHtml(s[1..]) == EscapeEachChar(s[1..]);
      UnescapeEntityThen(s[0], EscapeEachChar(s[1..]));
      UnescapeEscapeRoundTrip(s[1..]);
      assert s == [s[0]] + s[1..];
    }
  }

  /** Escaping loses nothing: distinct texts stay distinct. */
  lemma EscapeHtmlInjective(a: string, b: string)
    requires EscapeHtml(a) == EscapeHtml(b)
    ensures a == b
  {
    UnescapeEscapeRoundTrip(a);
    UnescapeEscapeRoundTrip(b);
  }

  // ---------------------------------------------------------------------
  // callAI

  /** callAI's choice: Anthropic for the provider `anthropic` and for an
      unset provider, OpenAI for every other value; a missing or empty model
      becomes the chosen vendor's default model. */
  function Route(settings: Settings): (d: Dispatch)
    ensures d.vendor == Anthropic <==> settings.provider == Some(AnthropicProvider) || settings.provider.None?
    ensures d.model.Some? && d.model.value != ""
    ensures Truthy(settings.model) ==> d.model == settings.model
    ensures !Truthy(settings.model) ==>
      d.model == Some(if d.vendor.Anthropic? then DefaultAnthropicModel else DefaultOpenAIModel)
  {
    if settings.provider == Some(AnthropicProvider) || settings.provider.None? then
      Dispatch(Anthropic, Some(OrElse(settings.model, DefaultAnthropicModel)))
    else
      Dispatch(OpenAI, Some(OrElse(settings.model, DefaultOpenAIModel)))
  }

  /** callAI: one call of the chosen adapter with the defaulted model. */
  method CallAI(settings: Settings, prompt: string, image: Option<string>, reply: Reply)
    returns (req: ApiRequest, outcome: Outcome)
    ensures var d := Route(settings);
      && req == VendorRequest(d.vendor, settings.apiKey, d.model, ContentFor(d.vendor, prompt, image))
      && outcome == Normalize(d.vendor, reply)
    ensures req.model.Some? && req.model.value != ""
  {
    var d := Route(settings);
    req, outcome := CallVendor(d.vendor, settings.apiKey, d.model, prompt, image, reply);
  }

  // ---------------------------------------------------------------------
  // Prompts of the context-menu handlers.

  const ExplainLead := "請解釋以下內容，用簡潔易懂的方式說明：\n\n"
  const AnalyzeImagePrompt := "請分析這張圖片，描述你看到的內容和重要細節。"

  /** handleTranslateSelection: the selection, whole, to be translated into
      the configured language, Traditional Chinese when none is set. */
  function TranslateSelectionPrompt(settings: Settings, text: string): (p: string)
    ensures !Truthy(settings.targetLang) ==> p == TranslationPrompt("繁體中文", text)
    ensures Truthy(settings.targetLang) ==> p == TranslationPrompt(LanguageName(settings.targetLang.value), text)
  {
    TranslationPrompt(TargetLanguageName(settings.targetLang), text)
  }

  /** handleExplainSelection: the fixed lead, then the selection. */
  function ExplainSelectionPrompt(text: string): (p: string)
    ensures ExplainLead <= p && p[|ExplainLead|..] == text
  {
    ExplainLead + text
  }

  const SummaryLead := "請總結以下網頁內容的重點：\n\n標題："
  const SummaryContentLabel := "\n內容："

  /** handleSummarizePage: the page title and at most the first 10000
      characters of the page text. */
  function SummarizePagePrompt(title: string, text: string): (p: string)
    ensures var lead := SummaryLead + title + SummaryContentLabel;
      && lead <= p
      && |p| <= |lead| + PageTextLimit
      && p[|lead|..] <= text
      && (|text| <= PageTextLimit ==> p[|lead|..] == text)
      && (|text| > PageTextLimit ==> |p| == |lead| + PageTextLimit)
  {
    var lead := SummaryLead + title + SummaryContentLabel;
    var p := lead + Substring0(text, PageTextLimit);
    assert p[..|lead|] == lead && p[|lead|..] == Substring0(text, PageTextLimit);
    p
  }
}

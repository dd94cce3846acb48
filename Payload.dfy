/** The two vendor adapters, callAnthropicAPI and callOpenAIAPI: how the
    message content is assembled, how the request is shaped, and how the
    vendor's reply becomes the returned text or the error thrown to the
    caller. popup.js and background.js carry identical copies of both
    adapters; this module models them once.

    The network is a parameter: `Reply` is what fetch settled with, and
    `Aborted` stands for the 60-second AbortController deadline firing
    first. */
module Payload {
  import opened Common
  import opened JsString

  datatype Vendor = Anthropic | OpenAI

  /** One element of a message's `content` array. */
  datatype Block =
    | TextBlock(text: string)                       // {type: 'text', text}
    | ImageBlock(mediaType: string, data: string)   // {type: 'image', source: {type: 'base64', media_type, data}}
    | ImageUrlBlock(url: string)                    // {type: 'image_url', image_url: {url}}

  datatype Message = Message(role: string, content: seq<Block>)

  datatype Header = Header(name: string, value: string)

  /** What the adapter hands to fetch: endpoint, headers, the JSON body's
      fields, and the abort deadline. An unset model is left out of the
      JSON body, which `None` records. */
  datatype ApiRequest = ApiRequest(
    url: string,
    headers: seq<Header>,
    model: Option<string>,
    maxTokens: nat,
    messages: seq<Message>,
    timeoutMs: nat)

  const AnthropicEndpoint := "https://api.anthropic.com/v1/messages"
  const OpenAIEndpoint := "https://api.openai.com/v1/chat/completions"
  const AnthropicVersion := "2023-06-01"
  const UserRole := "user"
  const PngMediaType := "image/png"

  // ---------------------------------------------------------------------
  // The data-URL prefix `^data:image\/\w+;base64,` removed for Anthropic.

  const DataUrlHead := "data:image/"
  const Base64Marker := ";base64,"

  /** The regular-expression class `\w`. */
  predicate IsWordChar(c: char)
  {
    ('a' <= c <= 'z') || ('A' <= c <= 'Z') || ('0' <= c <= '9') || c == '_'
  }

  predicate AllWordChars(s: string)
  {
    forall i :: 0 <= i < |s| ==> IsWordChar(s[i])
  }

  /** p is exactly one match of `data:image\/\w+;base64,`. */
  predicate IsDataUrlPrefix(p: string)
  {
    && |p| > |DataUrlHead| + |Base64Marker|
    && p[..|DataUrlHead|] == DataUrlHead
    && p[|p| - |Base64Marker|..] == Base64Marker
    && AllWordChars(p[|DataUrlHead|..|p| - |Base64Marker|])
  }

  /** The length of the longest run of word characters at the start of s. */
  function WordRun(s: string): (n: nat)
    ensures n <= |s|
    ensures AllWordChars(s[..n])
    ensures n < |s| ==> !IsWordChar(s[n])
  {
    if s != [] && IsWordChar(s[0]) then
      var n := 1 + WordRun(s[1..]);
      assert forall i :: 0 < i < n ==> s[..n][i] == s[1..][..n - 1][i - 1];
      n
    else
      0
  }

  /** A run of word characters followed by a non-word character is exactly
      as long as WordRun says. */
  lemma WordRunStopsAt(s: string, k: nat)
    requires k < |s| && AllWordChars(s[..k]) && !IsWordChar(s[k])
    ensures WordRun(s) == k
  {
  }

  /** `imageBase64.replace(/^data:image\/\w+;base64,/, '')`. */
  function StripDataUrlPrefix(s: string): (r: string)
    ensures |r| <= |s| && r == s[|s| - |r|..]
    ensures !(DataUrlHead <= s) ==> r == s
  {
    if DataUrlHead <= s then
      var rest := s[|DataUrlHead|..];
      var n := WordRun(rest);
      if n > 0 && Base64Marker <= rest[n..] then rest[n + |Base64Marker|..] else s
    else
      s
  }

  /** The stripped string is the input less one leading match of the
      pattern when there is one, and the input unchanged when no prefix of
      it matches. */
  lemma StripDataUrlPrefixSpec(s: string)
    ensures var r := StripDataUrlPrefix(s);
      && |r| <= |s| && r == s[|s| - |r|..]
      && (r != s ==> IsDataUrlPrefix(s[..|s| - |r|]))
      && (r == s <==> forall k :: 0 <= k <= |s| ==> !IsDataUrlPrefix(s[..k]))
  {
    var r := StripDataUrlPrefix(s);
    var h := |DataUrlHead|;
    if DataUrlHead <= s {
      var rest := s[h..];
      var n := WordRun(rest);
      if n > 0 && Base64Marker <= rest[n..] {
        var p := s[..|s| - |r|];
        assert |p| == h + n + |Base64Marker|;
        assert p[h..|p| - |Base64Marker|] == rest[..n];
        assert p[|p| - |Base64Marker|..] == rest[n..][..|Base64Marker|];
        assert IsDataUrlPrefix(p);
      } else {
        forall k | 0 <= k <= |s| ensures !IsDataUrlPrefix(s[..k]) {
          if IsDataUrlPrefix(s[..k]) {
            DataUrlPrefixRun(s, k);
          }
        }
      }
    }
  }

  /** A matching prefix of length k fixes the word run after the head. */
  lemma DataUrlPrefixRun(s: string, k: nat)
    requires k <= |s| && IsDataUrlPrefix(s[..k])
    ensures var rest := s[|DataUrlHead|..];
      && WordRun(rest) == k - |DataUrlHead| - |Base64Marker|
      && Base64Marker <= rest[WordRun(rest)..]
  {
    var h := |DataUrlHead|;
    var m := |Base64Marker|;
    var rest := s[h..];
    var w := k - h - m;
    assert rest[..w] == s[..k][h..k - m];
    assert rest[w] == s[..k][k - m] == ';';
    WordRunStopsAt(rest, w);
    assert rest[w..][..m] == s[..k][k - m..];
  }

  /** Stripping `data:image/<word>;base64,` from the front of a data URL
      leaves exactly the payload, even when the payload itself begins with
      another such prefix (the pattern is anchored and replaced once). */
  lemma {:induction false} StripDataUrl(word: string, payload: string)
    requires word != [] && AllWordChars(word)
    ensures StripDataUrlPrefix(DataUrlHead + word + Base64Marker + payload) == payload
  {
    var s := DataUrlHead + word + Base64Marker + payload;
    assert s[..|DataUrlHead|] == DataUrlHead;
    var rest := s[|DataUrlHead|..];
    assert rest == word + Base64Marker + payload;
    assert rest[..|word|] == word;
    assert rest[|word|] == ';';
    WordRunStopsAt(rest, |word|);
    assert rest[|word|..] == Base64Marker + payload;
    assert rest[|word|..][..|Base64Marker|] == Base64Marker;
    assert rest[|word| + |Base64Marker|..] == payload;
  }

  // ---------------------------------------------------------------------
  // Content arrays.

  /** `if (imageBase64)`: an image is attached when the argument is a
      non-empty string. */
  predicate HasImage(image: Option<string>)
  {
    Truthy(image)
  }

  /** Anthropic content: the image block (declared PNG, data-URL prefix
      stripped) first when there is an image, then the text block. */
  function AnthropicContent(prompt: string, image: Option<string>): (c: seq<Block>)
    ensures |c| == if HasImage(image) then 2 else 1
    ensures c[|c| - 1] == TextBlock(prompt)
    ensures HasImage(image) ==> c[0] == ImageBlock(PngMediaType, StripDataUrlPrefix(image.value))
  {
    (if HasImage(image) then [ImageBlock(PngMediaType, StripDataUrlPrefix(image.value))] else [])
      + [TextBlock(prompt)]
  }

  /** OpenAI content: the text item first, then the untouched data URL
      when there is an image. */
  function OpenAIContent(prompt: string, image: Option<string>): (c: seq<Block>)
    ensures |c| == if HasImage(image) then 2 else 1
    ensures c[0] == TextBlock(prompt)
    ensures HasImage(image) ==> c[1] == ImageUrlBlock(image.value)
  {
    [TextBlock(prompt)] + (if HasImage(image) then [ImageUrlBlock(image.value)] else [])
  }

  /** The text blocks of a content array, in order. */
  function Texts(c: seq<Block>): (ts: seq<string>)
    ensures |ts| <= |c|
  {
    if c == [] then []
    else (if c[0].TextBlock? then [c[0].text] else []) + Texts(c[1..])
  }

  /** Both vendors receive the prompt as their single text block; the
      image sits before it for Anthropic and after it for OpenAI, and for a
      well-formed data URL Anthropic gets the bare payload while OpenAI
      gets the whole URL. */
  lemma {:induction false} VendorContentsAgree(prompt: string, word: string, payload: string)
    requires word != [] && AllWordChars(word)
    ensures var url := DataUrlHead + word + Base64Marker + payload;
      && Texts(AnthropicContent(prompt, Some(url))) == [prompt]
      && Texts(OpenAIContent(prompt, Some(url))) == [prompt]
      && AnthropicContent(prompt, Some(url)) == [ImageBlock(PngMediaType, payload), TextBlock(prompt)]
      && OpenAIContent(prompt, Some(url)) == [TextBlock(prompt), ImageUrlBlock(url)]
  {
    var url := DataUrlHead + word + Base64Marker + payload;
    StripDataUrl(word, payload);
    var a := AnthropicContent(prompt, Some(url));
    var o := OpenAIContent(prompt, Some(url));
    assert a[1..][1..] == [] && o[1..][1..] == [];
  }

  /** The Anthropic adapter's `content` array, grown by `push`. */
  method BuildAnthropicContent(prompt: string, image: Option<string>) returns (content: seq<Block>)
    ensures content == AnthropicContent(prompt, image)
  {
    content := [];
    if HasImage(image) {
      var data := StripDataUrlPrefix(image.value);
      content := content + [ImageBlock(PngMediaType, data)];
    }
    content := content + [TextBlock(prompt)];
  }

  /** The OpenAI adapter's `content` array, grown by `push`. */
  method BuildOpenAIContent(prompt: string, image: Option<string>) returns (content: seq<Block>)
    ensures content == OpenAIContent(prompt, image)
  {
    content := [];
    content := content + [TextBlock(prompt)];
    if HasImage(image) {
      content := content + [ImageUrlBlock(image.value)];
    }
  }

  // ---------------------------------------------------------------------
  // Request shaping.

  /** The request headers, and no others: JSON content for both; the key
      in `x-api-key` with the API version and the browser-access opt-in for
      Anthropic, as a bearer token in `Authorization` for OpenAI. */
  function VendorHeaders(vendor: Vendor, apiKey: string): (hs: seq<Header>)
    ensures |hs| == if vendor.Anthropic? then 4 else 2
    ensures Header("Content-Type", "application/json") in hs
    ensures vendor.Anthropic? ==>
      && Header("x-api-key", apiKey) in hs
      && Header("anthropic-version", AnthropicVersion) in hs
      && Header("anthropic-dangerous-direct-browser-access", "true") in hs
      && forall h :: h in hs ==> h.name != "Authorization"
    ensures vendor.OpenAI? ==>
      && Header("Authorization", "Bearer " + apiKey) in hs
      && forall h :: h in hs ==> h.name != "x-api-key"
  {
    match vendor
    case Anthropic => [
      Header("Content-Type", "application/json"),
      Header("x-api-key", apiKey),
      Header("anthropic-version", AnthropicVersion),
      Header("anthropic-dangerous-direct-browser-access", "true")]
    case OpenAI => [
      Header("Content-Type", "application/json"),
      Header("Authorization", "Bearer " + apiKey)]
  }

  /** The fetch call both adapters make: the vendor's endpoint and
      authentication, one `user` message wrapping the content, the fixed
      4096-token cap and the 60-second abort deadline. */
  function VendorRequest(vendor: Vendor, apiKey: string, model: Option<string>, content: seq<Block>): (req: ApiRequest)
    ensures req.headers == VendorHeaders(vendor, apiKey)
    ensures req.messages == [Message(UserRole, content)]
    ensures req.maxTokens == 4096 && req.timeoutMs == 60000 && req.model == model
    ensures req.url == if vendor.Anthropic? then AnthropicEndpoint else OpenAIEndpoint
    ensures vendor.Anthropic? ==>
      Header("x-api-key", apiKey) in req.headers && Header("anthropic-version", "2023-06-01") in req.headers
    ensures vendor.OpenAI? ==>
      Header("Authorization", "Bearer " + apiKey) in req.headers
      && forall h :: h in req.headers ==> h.name != "x-api-key"
  {
    ApiRequest(
      if vendor.Anthropic? then AnthropicEndpoint else OpenAIEndpoint,
      VendorHeaders(vendor, apiKey),
      model,
      MaxTokens,
      [Message(UserRole, content)],
      ApiTimeoutMs)
  }

  // ---------------------------------------------------------------------
  // Replies and outcomes.

  /** A failure the adapter does not convert but re-throws unchanged. */
  datatype Fault =
    | NetworkFault(message: string)   // fetch rejected for a reason other than the abort
    | BodyNotJson                     // response.json() rejected
    | TextPathMissing                 // the vendor's success path is absent from the body

  /** A parsed response body, reduced to the fields the adapters read:
      `error.message`, Anthropic's `content[0].text` and OpenAI's
      `choices[0].message.content`. */
  datatype Body =
    | NotJson
    | Json(errorMessage: Option<string>, contentText: Option<string>, choiceText: Option<string>)

  /** How the fetch settled. */
  datatype Reply =
    | Aborted
    | FetchFailed(message: string)
    | Responded(status: nat, body: Body)

  /** What the adapter returns or throws: the vendor's text, an Error it
      constructs itself, or a failure it re-throws as it is. */
  datatype Outcome =
    | Answer(text: string)
    | Thrown(message: string)
    | Propagated(fault: Fault)

  const TimeoutMessage := "API 請求超時，請重試"
  const HttpErrorLead := "API 錯誤："

  /** `response.ok`. */
  predicate IsOk(status: nat)
  {
    200 <= status <= 299
  }

  /** The field of a successful body each vendor reads its answer from. */
  function VendorText(vendor: Vendor, body: Body): (t: Option<string>)
    ensures body.NotJson? ==> t.None?
    ensures body.Json? && vendor.Anthropic? ==> t == body.contentText
    ensures body.Json? && vendor.OpenAI? ==> t == body.choiceText
  {
    match body
    case NotJson => None
    case Json(_, contentText, choiceText) =>
      if vendor.Anthropic? then contentText else choiceText
  }

  /** `error.error?.message || \`API 錯誤：${response.status}\``. */
  function HttpErrorMessage(vendorMessage: Option<string>, status: nat): (m: string)
    ensures m != []
    ensures Truthy(vendorMessage) ==> m == vendorMessage.value
    ensures !Truthy(vendorMessage) ==> m == HttpErrorLead + DecimalString(status)
  {
    OrElse(vendorMessage, HttpErrorLead + DecimalString(status))
  }

  /** The fallback message names the status code unambiguously: two
      statuses without a vendor message never produce the same text. */
  lemma {:induction false} FallbackMessageIdentifiesStatus(s1: nat, s2: nat)
    requires HttpErrorMessage(None, s1) == HttpErrorMessage(None, s2)
    ensures s1 == s2
  {
    var m1, m2 := HttpErrorMessage(None, s1), HttpErrorMessage(None, s2);
    assert m1[|HttpErrorLead|..] == DecimalString(s1);
    assert m2[|HttpErrorLead|..] == DecimalString(s2);
    DecimalStringInjective(s1, s2);
  }

  /** The outcome of one adapter call for a given reply. */
  function Normalize(vendor: Vendor, reply: Reply): (r: Outcome)
    // a text comes back only from a 2xx reply that carries the vendor's field, and it is that field
    ensures r.Answer? <==> reply.Responded? && IsOk(reply.status) && VendorText(vendor, reply.body).Some?
    ensures r.Answer? ==> r.text == VendorText(vendor, reply.body).value
    // the abort becomes the fixed timeout message
    ensures reply.Aborted? ==> r == Thrown(TimeoutMessage)
    // a non-2xx JSON reply becomes the vendor's message or the status fallback
    ensures reply.Responded? && !IsOk(reply.status) && reply.body.Json? ==>
      r == Thrown(HttpErrorMessage(reply.body.errorMessage, reply.status))
    // any other failure of fetch leaves the adapter unchanged
    ensures reply.FetchFailed? ==> r == Propagated(NetworkFault(reply.message))
    // an unreadable body is never reported as an HTTP error or an answer
    ensures reply.Responded? && reply.body.NotJson? ==> r == Propagated(BodyNotJson)
    // a 2xx reply without the vendor's field fails on the property access, which is re-thrown
    ensures reply.Responded? && IsOk(reply.status) && reply.body.Json? && VendorText(vendor, reply.body).None? ==>
      r == Propagated(TextPathMissing)
    // every thrown message is non-empty
    ensures r.Thrown? ==> r.message != []
  {
    match reply
    case Aborted => Thrown(TimeoutMessage)
    case FetchFailed(m) => Propagated(NetworkFault(m))
    case Responded(status, body) =>
      if body.NotJson? then Propagated(BodyNotJson)
      else if !IsOk(status) then Thrown(HttpErrorMessage(body.errorMessage, status))
      else
        var t := VendorText(vendor, body);
        if t.Some? then Answer(t.value) else Propagated(TextPathMissing)
  }

  /** Error handling does not depend on the vendor: only the success path
      differs between the two adapters. */
  lemma ErrorsAreVendorIndependent(reply: Reply)
    requires !(reply.Responded? && IsOk(reply.status))
    ensures Normalize(Anthropic, reply) == Normalize(OpenAI, reply)
  {
  }

  /** Each adapter reads only its own field: a body holding just the other
      vendor's field is a missing-path failure. */
  lemma VendorReadsOwnField(status: nat, text: string)
    requires IsOk(status)
    ensures Normalize(Anthropic, Responded(status, Json(None, None, Some(text)))) == Propagated(TextPathMissing)
    ensures Normalize(OpenAI, Responded(status, Json(None, Some(text), None))) == Propagated(TextPathMissing)
    ensures Normalize(Anthropic, Responded(status, Json(None, Some(text), None))) == Answer(text)
    ensures Normalize(OpenAI, Responded(status, Json(None, None, Some(text)))) == Answer(text)
  {
  }

  // ---------------------------------------------------------------------
  // The adapters.

  /** callAnthropicAPI: builds the request, sends it, and settles with
      `reply`. */
  method CallAnthropicAPI(apiKey: string, model: Option<string>, prompt: string, image: Option<string>, reply: Reply)
    returns (req: ApiRequest, outcome: Outcome)
    ensures req == VendorRequest(Anthropic, apiKey, model, AnthropicContent(prompt, image))
    ensures outcome == Normalize(Anthropic, reply)
  {
    var content := BuildAnthropicContent(prompt, image);
    req := VendorRequest(Anthropic, apiKey, model, content);
    outcome := Normalize(Anthropic, reply);
  }

  /** callOpenAIAPI: builds the request, sends it, and settles with
      `reply`. */
  method CallOpenAIAPI(apiKey: string, model: Option<string>, prompt: string, image: Option<string>, reply: Reply)
    returns (req: ApiRequest, outcome: Outcome)
    ensures req == VendorRequest(OpenAI, apiKey, model, OpenAIContent(prompt, image))
    ensures outcome == Normalize(OpenAI, reply)
  {
    var content := BuildOpenAIContent(prompt, image);
    req := VendorRequest(OpenAI, apiKey, model, content);
    outcome := Normalize(OpenAI, reply);
  }

  /** A dispatcher's choice: the adapter to call and the model to send. */
  datatype Dispatch = Dispatch(vendor: Vendor, model: Option<string>)

  /** The vendor's content array for a prompt and an optional image. */
  function ContentFor(vendor: Vendor, prompt: string, image: Option<string>): seq<Block>
  {
    if vendor.Anthropic? then AnthropicContent(prompt, image) else OpenAIContent(prompt, image)
  }

  /** Calls the adapter for `vendor`. */
  method CallVendor(vendor: Vendor, apiKey: string, model: Option<string>, prompt: string, image: Option<string>, reply: Reply)
    returns (req: ApiRequest, outcome: Outcome)
    ensures req == VendorRequest(vendor, apiKey, model, ContentFor(vendor, prompt, image))
    ensures outcome == Normalize(vendor, reply)
  {
    if vendor.Anthropic? {
      req, outcome := CallAnthropicAPI(apiKey, model, prompt, image, reply);
    } else {
      req, outcome := CallOpenAIAPI(apiKey, model, prompt, image, reply);
    }
  }
}

/** The request building of geminiService.ts: the API-key check of `getGeminiClient`,
    the model/contents/config assembly of `chatWithGemini`, and the scan of the image
    response in `generateImage`. The network calls themselves are not modelled: the
    request that would be sent is the result, and the response is an input. */
module GeminiService {
  import opened Results
  import opened Types

  const KeyMissing := "API Key is missing from environment"

  datatype Client = Client(apiKey: string)

  /** `getGeminiClient`: `!apiKey` is true both for an absent key and for "". */
  function GetClient(apiKey: Option<string>): (r: Result<Client, string>)
    ensures r.Ok? <==> apiKey.Some? && apiKey.value != ""
    ensures r.Ok? ==> r.value.apiKey == apiKey.value
    ensures r.Err? ==> r.error == KeyMissing
  {
    if apiKey.None? || apiKey.value == "" then Err(KeyMissing) else Ok(Client(apiKey.value))
  }

  // ---------------------------------------------------------------- chatWithGemini

  const ProModel := "gemini-3-pro-preview"
  const FlashModel := "gemini-3-flash-preview"
  const ThinkingBudget: nat := 16000
  const Temperature: real := 0.7

  /** The fixed system prompt, kept opaque. */
  datatype Instruction = ChatInstruction

  /** One entry of the history the chat screen passes in: `{ role, content }`. */
  datatype Turn = Turn(role: MessageRole, content: string)

  datatype Part = TextPart(text: string)
  datatype Content = Content(role: string, parts: seq<Part>)
  datatype Tool = GoogleSearch | GoogleMaps
  datatype Location = Location(lat: real, lng: real)

  /** `options`; an absent boolean option is falsy and is modelled as `false`. */
  datatype ChatOptions = ChatOptions(thinking: bool, search: bool, maps: bool, location: Option<Location>)

  /** `config`; each optional field is `None` where the source never assigns it.
      `latLng` stands for `toolConfig.retrievalConfig.latLng`. */
  datatype Config = Config(
    systemInstruction: Instruction,
    temperature: real,
    tools: Option<seq<Tool>>,
    thinkingBudget: Option<nat>,
    latLng: Option<Location>)

  /** The argument of `ai.models.generateContent`. */
  datatype ChatRequest = ChatRequest(model: string, contents: seq<Content>, config: Config)

  /** `messages.map(...)`: one content per message, in order, with a single text part. */
  function Contents(messages: seq<Turn>): (cs: seq<Content>)
    ensures |cs| == |messages|
    ensures forall i :: 0 <= i < |cs| ==>
      && (cs[i].role == "user" <==> messages[i].role == User)
      && (cs[i].role == "model" <==> messages[i].role != User)
      && cs[i].parts == [TextPart(messages[i].content)]
  {
    seq(|messages|, i requires 0 <= i < |messages| =>
      Content(if messages[i].role == User then "user" else "model", [TextPart(messages[i].content)]))
  }

  /** The role string sent for each message is the wire value of its `MessageRole`. */
  lemma ContentsRoleIsWireValue(messages: seq<Turn>, i: nat)
    requires i < |messages|
    ensures Contents(messages)[i].role == RoleName(messages[i].role)
  {
  }

  /** `chatWithGemini` up to the network call: the client check, then the request. */
  method ChatWithGemini(apiKey: Option<string>, messages: seq<Turn>, options: ChatOptions)
    returns (r: Result<ChatRequest, string>)
    ensures r.Err? <==> GetClient(apiKey).Err?
    ensures r.Err? ==> r.error == KeyMissing
    ensures r.Ok? ==>
      var req := r.value;
      && (req.model == ProModel <==> options.thinking)
      && (req.model == FlashModel <==> !options.thinking)
      && req.contents == Contents(messages)
      && req.config.systemInstruction == ChatInstruction
      && req.config.temperature == Temperature
      && (req.config.tools.Some? <==> options.search || options.maps)
      && (req.config.tools.Some? ==>
            req.config.tools.value
              == (if options.search then [GoogleSearch] else []) + (if options.maps then [GoogleMaps] else []))
      && (req.config.thinkingBudget.Some? <==> options.thinking)
      && (req.config.thinkingBudget.Some? ==> req.config.thinkingBudget.value == ThinkingBudget)
      && (req.config.latLng.Some? <==> options.maps && options.location.Some?)
      && (req.config.latLng.Some? ==> req.config.latLng.value == options.location.value)
  {
    var client := GetClient(apiKey);
    if client.Err? {
      return Err(client.error);
    }
    var modelName := if options.thinking then ProModel else FlashModel;
    var contents := Contents(messages);

    var tools: seq<Tool> := [];
    if options.search {
      tools := tools + [GoogleSearch];
    }
    if options.maps {
      tools := tools + [GoogleMaps];
    }

    var config := Config(ChatInstruction, Temperature, None, None, None);
    if |tools| > 0 {
      config := config.(tools := Some(tools));
    }
    if options.thinking {
      config := config.(thinkingBudget := Some(ThinkingBudget));
    }
    if options.maps && options.location.Some? {
      config := config.(latLng := Some(options.location.value));
    }
    r := Ok(ChatRequest(modelName, contents, config));
  }

  // ---------------------------------------------------------------- generateImage

  const ImageModel := "gemini-2.5-flash-image"
  const DefaultAspectRatio := "1:1"

  datatype InlineData = InlineData(mimeType: string, data: string)

  /** A part of the image response; only whether it carries `inlineData` matters. */
  datatype ResponsePart = ResponsePart(inlineData: Option<InlineData>)

  /** The argument of `ai.models.generateContent` for an image. */
  datatype ImageRequest = ImageRequest(model: string, prompt: string, aspectRatio: string)

  /** `data:<mimeType>;base64,<data>`. */
  function DataUrl(inline: InlineData): string {
    "data:" + inline.mimeType + ";base64," + inline.data
  }

  /** The index of the first part carrying inline data, if any. */
  predicate IsFirstInline(parts: seq<ResponsePart>, k: nat) {
    k < |parts| && parts[k].inlineData.Some? &&
    forall j :: 0 <= j < k ==> parts[j].inlineData.None?
  }

  /** `generateImage` after the network call: `parts` is `candidates?.[0]?.content?.parts || []`.
      The result is the request sent and the returned URL (`None` for `null`). */
  method GenerateImage(apiKey: Option<string>, prompt: string, parts: seq<ResponsePart>)
    returns (r: Result<(ImageRequest, Option<string>), string>)
    ensures r.Err? <==> GetClient(apiKey).Err?
    ensures r.Err? ==> r.error == KeyMissing
    ensures r.Ok? ==> r.value.0 == ImageRequest(ImageModel, prompt, DefaultAspectRatio)
    ensures r.Ok? ==> (r.value.1.None? <==> forall j :: 0 <= j < |parts| ==> parts[j].inlineData.None?)
    ensures r.Ok? && r.value.1.Some? ==>
      exists k: nat :: IsFirstInline(parts, k) && r.value.1.value == DataUrl(parts[k].inlineData.value)
  {
    var client := GetClient(apiKey);
    if client.Err? {
      return Err(client.error);
    }
    var request := ImageRequest(ImageModel, prompt, DefaultAspectRatio);
    for i := 0 to |parts|
      invariant forall j :: 0 <= j < i ==> parts[j].inlineData.None?
    {
      if parts[i].inlineData.Some? {
        assert IsFirstInline(parts, i);
        return Ok((request, Some(DataUrl(parts[i].inlineData.value))));
      }
    }
    return Ok((request, None));
  }
}

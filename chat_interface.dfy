/** The chat screen of ChatInterface.tsx as an object. Its state hooks are fields; file
    selection, the toggles and the two halves of `handleSendMessage` (up to the `await`
    of the service call, and after it) are methods that update them in place. The text
    rules they use are in `ChatCommands` and `ChatFormat`, the request building in
    `GeminiService`. */
module ChatInterface {
  import opened Results
  import opened Types
  import opened GeminiService
  import opened ChatCommands
  import ChatFormat

  // ------------------------------------------------------------ messages

  const WelcomeId := "welcome"
  const Fallback := "I'm sorry, I couldn't process that."
  const ConnectionError := "Connection error with Atlas AI. Please check your internet."

  const WelcomeHead := "Hello **"
  const WelcomeTail := "**! I am **Atlas AI**, developed by **Fodil Zerrouali** from Algeria. I am your multilingual assistant. How can I help you today?"

  /** The first bubble, greeting the user by the name given at onboarding. */
  function Welcome(name: string): (m: ChatMessage)
    ensures m.id == WelcomeId && m.role == Model
    ensures |m.content| == |WelcomeHead| + |name| + |WelcomeTail|
    ensures m.content[..|WelcomeHead|] == WelcomeHead
    ensures m.content[|WelcomeHead|..|WelcomeHead| + |name|] == name
    ensures m.content[|WelcomeHead| + |name|..] == WelcomeTail
    ensures m.files.None? && m.kind.None? && m.grounding.None?
  {
    ChatMessage(WelcomeId, Model, WelcomeHead + name + WelcomeTail, None, None, None)
  }

  /** `userMsg`: the input as typed (untrimmed) and the pending files. */
  function UserMessage(id: string, input: string, files: seq<FileData>): ChatMessage {
    ChatMessage(id, User, input, Some(files), None, None)
  }

  /** `{ role, content }` of every message, in order. */
  function Turns(messages: seq<ChatMessage>): (ts: seq<Turn>)
    ensures |ts| == |messages|
    ensures forall i :: 0 <= i < |ts| ==>
      ts[i].role == messages[i].role && ts[i].content == messages[i].content
  {
    seq(|messages|, i requires 0 <= i < |messages| => Turn(messages[i].role, messages[i].content))
  }

  /** The history sent with a chat message is the earlier history followed by the user's
      own turn. */
  lemma HistoryEndsWithUserTurn(messages: seq<ChatMessage>, id: string, input: string, files: seq<FileData>)
    ensures Turns(messages + [UserMessage(id, input, files)]) == Turns(messages) + [Turn(User, input)]
  {
    var all := messages + [UserMessage(id, input, files)];
    assert forall i :: 0 <= i < |messages| ==> all[i] == messages[i];
  }

  /** The model's answer: the response text, or the apology when it is absent or empty;
      grounding only when there is at least one chunk. */
  function ChatReply(id: string, text: Option<string>, chunks: seq<GroundingChunk>): (m: ChatMessage)
    ensures m.role == Model && m.files.None? && m.kind.None?
    ensures text.Some? && text.value != "" ==> m.content == text.value
    ensures text.None? || text.value == "" ==> m.content == Fallback
    ensures m.grounding.Some? <==> |chunks| > 0
    ensures m.grounding.Some? ==> m.grounding.value == chunks
  {
    ChatMessage(id, Model, if text.Some? && text.value != "" then text.value else Fallback,
      None, None, if |chunks| > 0 then Some(chunks) else None)
  }

  function ImageReply(id: string, prompt: string, url: string): ChatMessage {
    ChatMessage(id, Model, "Image generated for: **" + prompt + "**",
      Some([FileData("generated.png", "image/png", Some(""), url)]), Some(Image), None)
  }

  function VideoReply(id: string, prompt: string, url: string): ChatMessage {
    ChatMessage(id, Model, "Video created for: **" + prompt + "**",
      Some([FileData("generated.mp4", "video/mp4", Some(""), url)]), Some(Video), None)
  }

  function ErrorReply(id: string): ChatMessage {
    ChatMessage(id, Model, ConnectionError, None, None, None)
  }

  // ------------------------------------------------------------ attachments

  /** `dataUrl.split(',')[1]`: the text between the first comma and the next one, or
      `undefined` when there is no comma. */
  function DataPart(url: string): Option<string> {
    var parts := ChatFormat.Split(url, ',');
    if |parts| >= 2 then Some(parts[1]) else None
  }

  lemma CountZeroIffAbsent(s: string, c: char)
    ensures ChatFormat.Count(s, c) == 0 <==> c !in s
  {
    if |s| > 0 {
      assert s == [s[0]] + s[1..];
      CountZeroIffAbsent(s[1..], c);
    }
  }

  /** The payload is missing exactly when the URL has no comma. */
  lemma DataPartMissingIffNoComma(url: string)
    ensures DataPart(url).None? <==> ',' !in url
  {
    ChatFormat.SplitCount(url, ',');
    CountZeroIffAbsent(url, ',');
  }

  /** Splitting a data URL built by the image service gives back its base64 payload. */
  lemma DataPartOfDataUrl(inline: InlineData)
    requires ',' !in inline.mimeType && ',' !in inline.data
    ensures DataPart(DataUrl(inline)) == Some(inline.data)
  {
    var head := "data:" + inline.mimeType + ";base64";
    assert ',' !in head;
    assert DataUrl(inline) == ChatFormat.Join([head, inline.data], ',');
    ChatFormat.SplitJoin([head, inline.data], ',');
  }

  /** A file as the picker hands it over: `file.name`, `file.type`, and the data URL the
      `FileReader` produced for it. */
  datatype SelectedFile = SelectedFile(name: string, mimeType: string, dataUrl: string)

  function Attachment(f: SelectedFile): FileData {
    FileData(f.name, f.mimeType, DataPart(f.dataUrl), f.dataUrl)
  }

  // ------------------------------------------------------------ the suspended send

  /** The locals `handleSendMessage` holds across its `await`: which service it called,
      with what. */
  datatype Pending =
    | ImagePending(prompt: string)
    | VideoPending(prompt: string)
    | ChatPending(history: seq<Turn>, options: ChatOptions)

  /** The branch chosen for an input, given the history and options a chat call would
      send. */
  function PendingFor(input: string, history: seq<Turn>, options: ChatOptions): (p: Pending)
    ensures p.ImagePending? <==> Classify(input) == ImageCommand
    ensures p.VideoPending? <==> Classify(input) == VideoCommand
    ensures p.ChatPending? <==> Classify(input) == ChatCommand
  {
    match Classify(input)
    case ImageCommand => ImagePending(ImagePrompt(input))
    case VideoCommand => VideoPending(VideoPrompt(input))
    case ChatCommand => ChatPending(history, options)
  }

  /** An input that starts with an image keyword asks for an image of the rest of it,
      whatever else it contains. */
  lemma ImageKeywordWins(input: string, k: nat, history: seq<Turn>, options: ChatOptions)
    requires k < |ImageKeywords| && StartsWith(Lower(input), ImageKeywords[k])
    ensures PendingFor(input, history, options) == ImagePending(Trim(input[|ImageKeywords[k]|..]))
  {
    ImageKeywordClassifies(input, k);
    ImagePromptDropsKeyword(input, k);
  }

  /** The video branch is taken only without an image keyword, and drops its own. */
  lemma VideoKeywordSelectsVideo(input: string, k: nat, history: seq<Turn>, options: ChatOptions)
    requires k < |VideoKeywords| && StartsWith(Lower(input), VideoKeywords[k])
    requires !StartsWithAny(Lower(input), ImageKeywords)
    ensures PendingFor(input, history, options) == VideoPending(Trim(input[|VideoKeywords[k]|..]))
  {
    VideoKeywordClassifies(input, k);
    VideoPromptDropsKeyword(input, k);
  }

  /** What the awaited service call came back with. `fails`: it rejected (a network or
      service error, or a video without a download link); the other fields are then
      ignored. `imageParts` is the image response's part list, `videoUrl` the object URL
      of the downloaded video, `text` and `chunks` the chat response's text and grounding
      chunks (`[]` when absent). */
  datatype Response = Response(
    fails: bool,
    imageParts: seq<ResponsePart>,
    videoUrl: string,
    text: Option<string>,
    chunks: seq<GroundingChunk>)

  /** The `catch` branch runs: the key check inside the service threw, or the call
      rejected. */
  predicate Failed(apiKey: Option<string>, response: Response) {
    GetClient(apiKey).Err? || response.fails
  }

  predicate NoInlineData(parts: seq<ResponsePart>) {
    forall j :: 0 <= j < |parts| ==> parts[j].inlineData.None?
  }

  // ------------------------------------------------------------ the screen

  class ChatScreen {
    var messages: seq<ChatMessage>
    var input: string
    var pendingFiles: seq<FileData>
    var isLoading: bool
    var isThinking: bool
    var useSearch: bool
    var useMaps: bool

    /** The screen on mount: the welcome message, nothing typed, every option off. */
    constructor (profile: UserProfile)
      ensures messages == [Welcome(profile.name)]
      ensures input == "" && pendingFiles == []
      ensures !isLoading && !isThinking && !useSearch && !useMaps
    {
      messages := [Welcome(profile.name)];
      input := "";
      pendingFiles := [];
      isLoading := false;
      isThinking := false;
      useSearch := false;
      useMaps := false;
    }

    /** The text box's `onChange`. */
    method SetInput(text: string)
      modifies this
      ensures input == text
      ensures messages == old(messages) && pendingFiles == old(pendingFiles) && isLoading == old(isLoading)
      ensures isThinking == old(isThinking) && useSearch == old(useSearch) && useMaps == old(useMaps)
    {
      input := text;
    }

    method ToggleThinking()
      modifies this
      ensures isThinking == !old(isThinking)
      ensures messages == old(messages) && input == old(input) && pendingFiles == old(pendingFiles)
      ensures isLoading == old(isLoading) && useSearch == old(useSearch) && useMaps == old(useMaps)
    {
      isThinking := !isThinking;
    }

    method ToggleSearch()
      modifies this
      ensures useSearch == !old(useSearch)
      ensures messages == old(messages) && input == old(input) && pendingFiles == old(pendingFiles)
      ensures isLoading == old(isLoading) && isThinking == old(isThinking) && useMaps == old(useMaps)
    {
      useSearch := !useSearch;
    }

    method ToggleMaps()
      modifies this
      ensures useMaps == !old(useMaps)
      ensures messages == old(messages) && input == old(input) && pendingFiles == old(pendingFiles)
      ensures isLoading == old(isLoading) && isThinking == old(isThinking) && useSearch == old(useSearch)
    {
      useMaps := !useMaps;
    }

    /** `handleFileUpload`: no file list, nothing happens; otherwise each file becomes an
        attachment, in selection order, after the files already pending. */
    method UploadFiles(files: Option<seq<SelectedFile>>)
      modifies this
      ensures files.None? ==> pendingFiles == old(pendingFiles)
      ensures files.Some? ==>
        && |pendingFiles| == |old(pendingFiles)| + |files.value|
        && pendingFiles[..|old(pendingFiles)|] == old(pendingFiles)
        && forall i :: 0 <= i < |files.value| ==>
             pendingFiles[|old(pendingFiles)| + i] == Attachment(files.value[i])
      ensures messages == old(messages) && input == old(input) && isLoading == old(isLoading)
      ensures isThinking == old(isThinking) && useSearch == old(useSearch) && useMaps == old(useMaps)
    {
      if files.None? {
        return;
      }
      var selected := files.value;
      var newFiles: seq<FileData> := [];
      for i := 0 to |selected|
        invariant |newFiles| == i
        invariant forall j :: 0 <= j < i ==> newFiles[j] == Attachment(selected[j])
      {
        var dataUrl := selected[i].dataUrl;
        var base64Data := DataPart(dataUrl);
        newFiles := newFiles + [FileData(selected[i].name, selected[i].mimeType, base64Data, dataUrl)];
      }
      pendingFiles := pendingFiles + newFiles;
    }

    /** `handleSendMessage` up to its `await`: unless the guard returns early, the user's
        message is appended, the input and pending files are cleared, loading starts, and
        the branch is chosen. The result is the suspended call, `None` on an early
        return. */
    method BeginSend(userId: string) returns (pending: Option<Pending>)
      modifies this
      ensures !CanSend(old(input), |old(pendingFiles)|, old(isLoading)) ==>
        && pending.None?
        && messages == old(messages) && input == old(input)
        && pendingFiles == old(pendingFiles) && isLoading == old(isLoading)
      ensures CanSend(old(input), |old(pendingFiles)|, old(isLoading)) ==>
        && messages == old(messages) + [UserMessage(userId, old(input), old(pendingFiles))]
        && input == "" && pendingFiles == [] && isLoading
        && pending == Some(PendingFor(old(input), Turns(messages),
             ChatOptions(isThinking, useSearch, useMaps, None)))
      ensures isThinking == old(isThinking) && useSearch == old(useSearch) && useMaps == old(useMaps)
    {
      if !CanSend(input, |pendingFiles|, isLoading) {
        return None;
      }
      var typed := input;
      messages := messages + [UserMessage(userId, typed, pendingFiles)];
      input := "";
      pendingFiles := [];
      isLoading := true;
      pending := Some(PendingFor(typed, Turns(messages), ChatOptions(isThinking, useSearch, useMaps, None)));
    }

    /** The Enter key sends, Shift+Enter does not. */
    method KeyDown(key: string, shift: bool, userId: string) returns (pending: Option<Pending>)
      modifies this
      ensures key != "Enter" || shift ==>
        && pending.None? && messages == old(messages) && input == old(input)
        && pendingFiles == old(pendingFiles) && isLoading == old(isLoading)
      ensures key == "Enter" && !shift && !CanSend(old(input), |old(pendingFiles)|, old(isLoading)) ==>
        && pending.None?
        && messages == old(messages) && input == old(input)
        && pendingFiles == old(pendingFiles) && isLoading == old(isLoading)
      ensures key == "Enter" && !shift && CanSend(old(input), |old(pendingFiles)|, old(isLoading)) ==>
        && messages == old(messages) + [UserMessage(userId, old(input), old(pendingFiles))]
        && input == "" && pendingFiles == [] && isLoading
        && pending == Some(PendingFor(old(input), Turns(messages),
             ChatOptions(isThinking, useSearch, useMaps, None)))
      ensures isThinking == old(isThinking) && useSearch == old(useSearch) && useMaps == old(useMaps)
    {
      pending := None;
      if key == "Enter" && !shift {
        pending := BeginSend(userId);
      }
    }

    /** `handleSendMessage` after its `await`: the service call runs with the suspended
        locals, one reply (or the error bubble, or for an image without inline data
        nothing) is appended to the messages as they are now, and loading ends. The
        result is the chat request sent, if any. */
    method FinishSend(p: Pending, apiKey: Option<string>, response: Response, replyId: string)
      returns (request: Option<ChatRequest>)
      modifies this
      ensures !isLoading
      ensures input == old(input) && pendingFiles == old(pendingFiles)
      ensures isThinking == old(isThinking) && useSearch == old(useSearch) && useMaps == old(useMaps)
      ensures Failed(apiKey, response) ==> messages == old(messages) + [ErrorReply(replyId)]
      ensures !Failed(apiKey, response) && p.VideoPending? ==>
        messages == old(messages) + [VideoReply(replyId, p.prompt, response.videoUrl)]
      ensures !Failed(apiKey, response) && p.ChatPending? ==>
        messages == old(messages) + [ChatReply(replyId, response.text, response.chunks)]
      ensures !Failed(apiKey, response) && p.ImagePending? && NoInlineData(response.imageParts) ==>
        messages == old(messages)
      ensures !Failed(apiKey, response) && p.ImagePending? && !NoInlineData(response.imageParts) ==>
        exists k: nat :: IsFirstInline(response.imageParts, k) &&
          messages == old(messages) +
            [ImageReply(replyId, p.prompt, DataUrl(response.imageParts[k].inlineData.value))]
      ensures request.Some? <==> p.ChatPending? && GetClient(apiKey).Ok?
      ensures request.Some? ==>
        && request.value.contents == Contents(p.history)
        && (request.value.model == ProModel <==> p.options.thinking)
    {
      request := None;
      match p {
        case ImagePending(prompt) =>
          var r := GenerateImage(apiKey, prompt, response.imageParts);
          if r.Err? || response.fails {
            messages := messages + [ErrorReply(replyId)];
          } else if r.value.1.Some? {
            messages := messages + [ImageReply(replyId, prompt, r.value.1.value)];
          }
        case VideoPending(prompt) =>
          if GetClient(apiKey).Err? || response.fails {
            messages := messages + [ErrorReply(replyId)];
          } else {
            messages := messages + [VideoReply(replyId, prompt, response.videoUrl)];
          }
        case ChatPending(history, options) =>
          var r := ChatWithGemini(apiKey, history, options);
          if r.Ok? {
            request := Some(r.value);
          }
          if r.Err? || response.fails {
            messages := messages + [ErrorReply(replyId)];
          } else {
            messages := messages + [ChatReply(replyId, response.text, response.chunks)];
          }
      }
      isLoading := false;
    }
  }
}

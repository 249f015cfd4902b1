# Atlas AI — a verified model of the chat and live-voice core

Atlas AI is a browser client for Google's Gemini models. A user fills in a short
profile form and then either chats (text, attachments, web and maps grounding,
image and video generation on keyword commands) or opens a realtime voice session.
In the voice session, microphone audio is streamed up as 16-bit PCM. Spoken replies
come back as PCM chunks and are scheduled gap-free on an audio clock, and the server
can interrupt playback ("barge-in").

This project models that core in Dafny and proves what it does:

| module (file) | source | what it holds |
|---|---|---|
| `Results` (results.dfy) | — | `Option` and `Result` |
| `Types` (types.dfy) | types.ts | the records: roles, messages, files, profile |
| `GeminiService` (gemini_service.dfy) | geminiService.ts | the API-key check, the chat request config builder, the image part scan and its data URL |
| `LiveBytes` (live_bytes.dfy) | LiveView.tsx | the byte loops of `encode`/`decode`, float-to-Int16 capture conversion, `decodeAudioData` |
| `LiveSession` (live_session.dfy) | LiveView.tsx | the voice screen as a pure state machine: cursor, source set, effect log |
| `LiveFacts` (live_facts.dfy) | LiveView.tsx | the properties of that state machine |
| `LiveComponent` (live_view.dfy) | LiveView.tsx | class `LiveView`: its fields are the component's state and refs, and each callback is a method proved to take exactly one step of `LiveSession` |
| `Onboarding` (onboarding.dfy) | Onboarding.tsx | the digit filter and class `OnboardingForm` with the submit guard |
| `ChatCommands` (chat_commands.dfy) | ChatInterface.tsx | `trim`, ASCII lower-casing, the send guard, command classification, prompt extraction |
| `ChatFormat` (chat_format.dfy) | ChatInterface.tsx | `FormattedText`: line split, the lazy `**…**` split, bold/code/plain rendering |
| `ChatInterface` (chat_interface.dfy) | ChatInterface.tsx | class `ChatScreen`: welcome message, file upload, `handleSendMessage` split at its `await`, toggles, Enter key |

Each asynchronous callback is modelled as one atomic step. Everything outside the
program becomes a parameter:

- the network responses;
- whether `atob` or the microphone request succeeded;
- the audio clock;
- the API key.

Calls the program makes into the Web Audio engine, the microphone and the streaming
transport go into an ordered effect log (`LiveSession.Effect`). That log is what the
scheduling and teardown properties are stated on.

## Model

| member | source | states |
|---|---|---|
| GeminiService.GetClient | geminiService.ts:14-18 | a client exists iff the key is present and non-empty; the client carries that key; otherwise the "API Key is missing" error |
| GeminiService.Contents | geminiService.ts:28-31 | one wire content per message, same order, its text part the message content |
| GeminiService.ContentsRoleIsWireValue | geminiService.ts:29 | a user message maps to role "user", a model message to "model" |
| GeminiService.ChatWithGemini | geminiService.ts:20-63 | fails exactly when the key check fails; otherwise pro model iff thinking, flash otherwise; the system instruction and temperature 0.7; tools present iff search or maps, and then exactly one search entry if search is on followed by one maps entry if maps is on; thinking budget 16000 iff thinking; lat/lng only when maps is on and a location is given |
| GeminiService.GenerateImage | geminiService.ts:65-80 | fails exactly when the key check fails; asks the image model with aspect ratio 1:1; no URL iff no part has inline data; otherwise the data URL of the first part that has inline data |
| GeminiService.DataUrl | geminiService.ts:76 | `data:<mime>;base64,<data>`; ChatInterface.DataPartOfDataUrl proves the attachment reader recovers the data from it |
| LiveBytes.BytesOfBinaryOf | LiveView.tsx:34-45 | decoding the binary string of any byte sequence gives those bytes back |
| LiveBytes.BinaryOfBytesOf | LiveView.tsx:34-45 | for a string whose characters are all below 256, encoding its bytes gives the string back |
| LiveBytes.Encode | LiveView.tsx:34-38 | the loop builds one character per byte, with the byte's code |
| LiveBytes.Decode | LiveView.tsx:40-45 | the loop fills one byte per character, holding the character code modulo 256 (Uint8Array store) |
| LiveBytes.PcmBytesAt | LiveView.tsx:100 | the byte view of an Int16 array is little-endian: low byte at 2k, high byte at 2k+1 |
| LiveBytes.PcmRoundTrip | LiveView.tsx:48 | reading Int16 samples back from the byte view returns each original sample |
| LiveBytes.PcmWireRoundTrip | LiveView.tsx:98-100 | the capture frame survives encode then decode: sample k read back equals sample k sent |
| LiveBytes.SampleInRange | LiveView.tsx:98 | for -1 <= x < 1, the stored sample is x*32768 truncated toward zero, and it keeps the sign of x |
| LiveBytes.SampleToInt16 | LiveView.tsx:98 | the Int16Array store of `x * 32768`: truncation toward zero, then reduction modulo 2^16 into the signed range; its behaviour is stated by SampleInRange and FullScaleWraps |
| LiveBytes.FullScaleWraps | LiveView.tsx:98 | 1.0 and -1.0 are both stored as -32768: the Int16 store wraps and does not clamp |
| LiveBytes.ConvertBlock | LiveView.tsx:96-98 | the conversion loop stores each float sample as its wrapped Int16 |
| LiveBytes.PcmView | LiveView.tsx:100 | the byte view holds exactly the little-endian bytes of the Int16 array |
| LiveBytes.EncodeBlock | LiveView.tsx:96-100 | the frame payload is two characters per sample, and those characters decode back to the sample's Int16 value |
| LiveBytes.DecodePcm | LiveView.tsx:47-56 | an odd byte count is an error; so is zero frames; otherwise there are `(bytes/2)/channels` frames at the given rate, and channel c, frame i holds the interleaved sample `i*channels+c` divided by 32768 |
| LiveBytes.FillChannel | LiveView.tsx:51-54 | the inner loop fills channel `channel` with exactly those frame values |
| LiveBytes.DecodeAudioData | LiveView.tsx:47-56 | the imperative decoder returns exactly `DecodePcm` of its bytes |
| LiveBytes.MonoDecodeOfPcm | LiveView.tsx:47-56 | decoding the PCM bytes of n Int16 samples as mono succeeds with n frames, each sample/32768 |
| LiveSession.Initial | LiveView.tsx:20-32 | the state on mount (not muted, connecting, voice Puck, cursor 0, nothing tracked) is well formed |
| LiveSession.Remove | LiveView.tsx:117 | deleting a source keeps every other source and nothing else; deleting an untracked source changes nothing |
| LiveSession.RemoveKeepsDistinct | LiveView.tsx:117 | deleting from a set without duplicates leaves no duplicates |
| LiveSession.StopAll | LiveView.tsx:58-62 | the stopAllSources step: one stop per tracked source appended to the log, the set emptied, the cursor reset; stated by LiveFacts.StopAllStopsEach and StopAllIdempotent |
| LiveSession.OnEnded | LiveView.tsx:117 | the `onended` step: the source leaves the set; stated by LiveFacts.EndedRemovesOnlyThatSource and EndedAfterStopIsNoOp |
| LiveSession.AudioPayload | LiveView.tsx:107 | the optional chain to the audio payload: absent content, turn or first part gives no payload, and a turn without `parts` throws; stated by LiveFacts.MalformedTurnChangesNothing |
| LiveSession.ScheduleAudio | LiveView.tsx:109-117 | the audio branch: the cursor is raised to the clock first; a failed `atob` or decode rejects there; otherwise the buffer starts at the cursor, which advances by its duration, and a fresh source is tracked; stated by LiveFacts.ScheduleRule and RejectedFrame |
| LiveSession.OnMessage | LiveView.tsx:106-120 | the `onmessage` step: the audio branch for a non-empty payload, then stop-all when interrupted, unless the handler rejected first; stated by LiveFacts.ScheduleStep, InterruptClearsPlayback and the Feed/Timeline lemmas |
| LiveSession.StartSession | LiveView.tsx:64-130 | the startSession step up to the pending connect: teardown, the key check, the contexts, the microphone and the connect; stated by LiveFacts.StartSessionTearsDown, StartSessionAcquires, StartSessionConnects and StartSessionWithoutClient |
| LiveSession.OnOpen | LiveView.tsx:90-105 | `onopen` plus the stored session: connecting ends, the connection's capture pipeline is installed, the session is remembered; stated by LiveFacts.OnOpenKeepsValid |
| LiveSession.OnAudioProcess | LiveView.tsx:94-102 | the capture step: nothing for a muted pipeline, otherwise one 16 kHz PCM frame to that session; stated by LiveFacts.CaptureGate and MuteToggleNotSeen |
| LiveSession.PickVoice | LiveView.tsx:176 | the voice button: new voice shown, picker closed, restart with the rendered voice and mute flag; stated by LiveFacts.PickVoiceUsesPreviousVoice |
| LiveSession.Unmount | LiveView.tsx:134-138 | the effect cleanup: tracks stopped, session closed and output context closed, each only when held, the refs kept; matched by LiveComponent.LiveView.Unmount |
| LiveFacts.StopAllStopsEach | LiveView.tsx:58-62 | stopAllSources stops every tracked source once, in order, after the existing log; the set ends empty and the cursor 0 |
| LiveFacts.StopAllIdempotent | LiveView.tsx:58-62 | a second stopAllSources changes nothing |
| LiveFacts.EndedAfterStopIsNoOp | LiveView.tsx:117 | `onended` of a source no longer tracked changes nothing, in particular after a stop |
| LiveFacts.EndedRemovesOnlyThatSource | LiveView.tsx:117 | `onended` removes exactly that source and keeps the order of the rest |
| LiveFacts.ScheduleStep | LiveView.tsx:108-116 | a decodable chunk starts at max(cursor, now), the cursor moves to that plus the duration, and a fresh source id is used |
| LiveFacts.ScheduleRule | LiveView.tsx:108-117 | that step with a positive duration: the cursor ends after both the clock and the old cursor, and the fresh source joins the set without a duplicate |
| LiveFacts.InterruptClearsPlayback | LiveView.tsx:119 | an interrupted message leaves no tracked source and cursor 0; a chunk in the same message is first scheduled and then stopped |
| LiveFacts.RejectedFrame | LiveView.tsx:108-110 | a chunk that fails to decode only raises the cursor to the clock; the interrupted flag is not reached |
| LiveFacts.MalformedTurnChangesNothing | LiveView.tsx:107 | a message whose optional chain throws changes nothing |
| LiveFacts.TimelineNotEarly | LiveView.tsx:109-114 | no buffer starts before its arrival or before the cursor the run started from |
| LiveFacts.TimelineBackToBack | LiveView.tsx:114-115 | each buffer starts no earlier than the previous start plus its duration, so start times strictly increase |
| LiveFacts.TimelineGapFree | LiveView.tsx:109-115 | when a chunk arrives before the previous one ends, it starts exactly when the previous one ends |
| LiveFacts.FeedFollowsTimeline | LiveView.tsx:106-118 | feeding n chunks logs n start effects, the k-th with fresh id k at timeline slot k |
| LiveFacts.FeedKeepsLog | LiveView.tsx:106-118 | feeding chunks only appends to the effect log |
| LiveFacts.FeedEndsAtLastBuffer | LiveView.tsx:115 | after feeding chunks the cursor is the last start plus its duration |
| LiveFacts.FeedTracksSources | LiveView.tsx:116 | feeding chunks keeps the state well formed and appends the fresh ids to the tracked set in order |
| LiveFacts.TwoBuffersThenBargeIn | LiveView.tsx:106-120 | two 12000-frame chunks at 24 kHz play at 0.0 and 0.5 s, the cursor reaches 1.0, and an interruption then clears all playback |
| LiveFacts.StartSessionTearsDown | LiveView.tsx:65-67 | startSession first stops all sources and closes the prior session, before any other effect |
| LiveFacts.TornDownFacts | LiveView.tsx:65-67 | teardown logs the stops and the close, clears playback and keeps session, pipelines, connections and devices |
| LiveFacts.AcquireExtends | LiveView.tsx:71-77 | acquiring devices only extends the log, holds the output context, and changes at most the stream and connecting flags |
| LiveFacts.ConnectedExtends | LiveView.tsx:79 | connecting only extends the effect log and the connection list; nothing else changes |
| LiveFacts.PrefixTransitive | LiveView.tsx:64-130 | log prefixes compose across the steps of startSession |
| LiveFacts.StartSessionWithoutClient | LiveView.tsx:70 | with no client: only the teardown effects, connecting ends false, no connection and no device opened |
| LiveFacts.StartSessionAcquires | LiveView.tsx:70-79 | with a client, the log is the teardown, then the input context, the output context only if missing, the microphone only if missing, and the connect only if a stream is held |
| LiveFacts.StartSessionConnects | LiveView.tsx:71-125 | with a client the output context is held; a stream is held and a connection opened iff the microphone was held or granted; connecting stays true exactly then |
| LiveFacts.PickVoiceUsesPreviousVoice | LiveView.tsx:176 | picking a voice shows it and closes the picker, but the new connection is made with the previously selected voice and mute flag |
| LiveFacts.StartWithoutKey | LiveView.tsx:70 | with no API key, startSession only stops sources and closes the prior session and ends not connecting |
| LiveFacts.CaptureGate | LiveView.tsx:94-101 | a muted pipeline sends nothing; an unmuted one sends exactly one frame with the 16 kHz PCM mime type whose decoded samples are the block's Int16 samples |
| LiveFacts.MuteToggleNotSeen | LiveView.tsx:95 | toggling mute does not change what a running capture pipeline sends |
| LiveFacts.StopAllKeepsValid | LiveView.tsx:58-62 | stopAllSources keeps the state well formed |
| LiveFacts.OnEndedKeepsValid | LiveView.tsx:117 | `onended` keeps the state well formed |
| LiveFacts.ScheduleKeepsValid | LiveView.tsx:108-117 | scheduling keeps the state well formed |
| LiveFacts.OnMessageKeepsValid | LiveView.tsx:106-120 | `onmessage` keeps the state well formed: cursor non-negative, tracked ids distinct and already issued |
| LiveFacts.StartSessionKeepsValid | LiveView.tsx:64-130 | startSession with a catalog voice keeps the state well formed |
| LiveFacts.OnOpenKeepsValid | LiveView.tsx:90-105 | `onopen` keeps the state well formed |
| LiveFacts.PickVoiceKeepsValid | LiveView.tsx:176 | picking a catalog voice keeps the state well formed |
| LiveComponent.LiveView.constructor | LiveView.tsx:20-32 | the fields start as the initial state, which is well formed |
| LiveComponent.LiveView.StopAllSources | LiveView.tsx:58-62 | the loop over the set performs exactly `StopAll` |
| LiveComponent.LiveView.OnEnded | LiveView.tsx:117 | exactly the `onended` step, keeping the object well formed |
| LiveComponent.LiveView.OnMessage | LiveView.tsx:106-120 | exactly the `onmessage` step, keeping the object well formed |
| LiveComponent.LiveView.PlayAudio | LiveView.tsx:108-118 | exactly the scheduling step; reports whether the decode completed |
| LiveComponent.LiveView.OnAudioProcess | LiveView.tsx:94-102 | exactly the capture step of that pipeline |
| LiveComponent.LiveView.StartSession | LiveView.tsx:64-130 | exactly the startSession step up to the pending connect, keeping the object well formed |
| LiveComponent.LiveView.TearDown | LiveView.tsx:65-67 | exactly the teardown |
| LiveComponent.LiveView.AcquireDevices | LiveView.tsx:71-77 | exactly the device acquisition |
| LiveComponent.LiveView.ConnectSession | LiveView.tsx:79-124 | exactly the connect call |
| LiveComponent.LiveView.OnOpen | LiveView.tsx:90-105 | exactly `onopen` plus storing the resolved session, keeping the object well formed |
| LiveComponent.LiveView.OnConnectFailed | LiveView.tsx:126-129 | a rejected connect only clears the connecting flag |
| LiveComponent.LiveView.ToggleMute | LiveView.tsx:163 | exactly the mute toggle |
| LiveComponent.LiveView.OpenVoicePicker | LiveView.tsx:166 | exactly opening the picker |
| LiveComponent.LiveView.PickVoice | LiveView.tsx:176 | exactly the voice button: new voice shown, picker closed, restart with the rendered voice and mute flag |
| LiveComponent.LiveView.Unmount | LiveView.tsx:134-138 | exactly the effect cleanup: tracks stopped, session closed, output context closed, each only if held |
| Onboarding.DigitsOnly | Onboarding.tsx:58-60 | the filtered text holds only ASCII digits and is no longer than the input |
| Onboarding.DigitsOnlyAppend | Onboarding.tsx:58-60 | the filter distributes over concatenation |
| Onboarding.DigitsOnlyCounts | Onboarding.tsx:58-60 | each digit is kept as often as it occurs; every other character is dropped |
| Onboarding.DigitsOnlyFixed | Onboarding.tsx:58-60 | the filter leaves a text unchanged iff it is all digits |
| Onboarding.DigitsOnlyIdempotent | Onboarding.tsx:58-60 | filtering twice is filtering once |
| Onboarding.DigitsOnlyEmpty | Onboarding.tsx:58-60 | the result is empty iff the input has no digit |
| Onboarding.OnboardingForm.Fields | Onboarding.tsx:11-14 | the profile built from the form holds its four fields |
| Onboarding.OnboardingForm.constructor | Onboarding.tsx:11-14 | all four fields start empty, so the form is not yet complete |
| Onboarding.OnboardingForm.SetName | Onboarding.tsx:47 | the name field takes the typed value unfiltered; nothing else changes |
| Onboarding.OnboardingForm.SetDay | Onboarding.tsx:58 | the day field takes the digit-filtered value; nothing else changes |
| Onboarding.OnboardingForm.SetMonth | Onboarding.tsx:59 | the month field takes the digit-filtered value; nothing else changes |
| Onboarding.OnboardingForm.SetYear | Onboarding.tsx:60 | the year field takes the digit-filtered value; nothing else changes |
| Onboarding.OnboardingForm.Submit | Onboarding.tsx:16-21 | the profile is handed on iff all four fields are non-empty, it is exactly those fields, and its day, month and year are all digits |
| ChatCommands.Lower | ChatInterface.tsx:116 | lower-casing keeps the length and maps each character on its own |
| ChatCommands.LowerSlice | ChatInterface.tsx:116 | lower-casing commutes with slicing |
| ChatCommands.TrimStart | ChatInterface.tsx:121 | the result is a suffix of the input, everything dropped is white space, and it does not start with white space |
| ChatCommands.TrimEnd | ChatInterface.tsx:121 | the result is a prefix of the input, everything dropped is white space, and it does not end with white space |
| ChatCommands.Trim | ChatInterface.tsx:121 | `trim()` as TrimStart then TrimEnd; stated by TrimEmptyIffBlank, TrimIsSlice, TrimHasNoOuterSpace and TrimIdempotent |
| ChatCommands.TrimEmptyIffBlank | ChatInterface.tsx:101 | the trimmed input is empty iff every character is white space |
| ChatCommands.TrimIsSlice | ChatInterface.tsx:121 | the trimmed text is a contiguous slice of the input with only white space outside it |
| ChatCommands.TrimHasNoOuterSpace | ChatInterface.tsx:121 | a non-empty trimmed text neither starts nor ends with white space |
| ChatCommands.TrimIdempotent | ChatInterface.tsx:121 | trimming twice is trimming once |
| ChatCommands.CanSend | ChatInterface.tsx:101 | the negated early-return condition of handleSendMessage; characterised by SendGuard |
| ChatCommands.SendGuard | ChatInterface.tsx:101 | a message is sent iff nothing is loading and there is a pending file or a non-white-space character in the input |
| ChatCommands.Classify | ChatInterface.tsx:116-118 | image iff the lower-cased input starts with an image keyword; video iff not image and it starts with a video keyword; chat otherwise |
| ChatCommands.ImageKeywordClassifies | ChatInterface.tsx:117 | any image keyword at the start makes the input an image command |
| ChatCommands.VideoKeywordClassifies | ChatInterface.tsx:118 | a video keyword at the start, with no image keyword, makes it a video command |
| ChatCommands.FirstAlternative | ChatInterface.tsx:121 | at a position, the regex alternatives are tried in order and the first that matches case-insensitively is taken |
| ChatCommands.FindFrom | ChatInterface.tsx:121 | the regex match is the leftmost position where some alternative matches |
| ChatCommands.RemoveFirst | ChatInterface.tsx:121 | `replace` without the `g` flag: only the leftmost match, of the first alternative matching there, is removed; stated by PromptDropsKeyword |
| ChatCommands.ImagePrompt | ChatInterface.tsx:121 | the image prompt: the first image keyword removed, then trimmed; stated by ImagePromptDropsKeyword |
| ChatCommands.VideoPrompt | ChatInterface.tsx:133 | the video prompt: the first video keyword removed, then trimmed; stated by VideoPromptDropsKeyword |
| ChatCommands.CommandKeywordsDistinct | ChatInterface.tsx:117-118 | each command's keywords are non-empty, lower case, and start with pairwise different characters, so at most one can match at a position |
| ChatCommands.OnlyPrefixMatches | ChatInterface.tsx:121 | when the lower-cased input starts with keyword k, the case-insensitive regex matches k at 0 and no other alternative there |
| ChatCommands.PromptDropsKeyword | ChatInterface.tsx:121 | the replace removes exactly the leading keyword the input starts with |
| ChatCommands.ImagePromptDropsKeyword | ChatInterface.tsx:121 | the image prompt is the rest of the input after its image keyword, trimmed |
| ChatCommands.VideoPromptDropsKeyword | ChatInterface.tsx:133 | the video prompt is the rest of the input after its video keyword, trimmed |
| ChatFormat.IndexOf | ChatInterface.tsx:28 | the first occurrence of the separator, or none when it is absent |
| ChatFormat.Split | ChatInterface.tsx:28 | split yields at least one part and no part contains the separator |
| ChatFormat.JoinSplit | ChatInterface.tsx:28 | joining the parts with the separator gives the text back |
| ChatFormat.SplitJoin | ChatInterface.tsx:28 | splitting a join of separator-free parts gives the parts back |
| ChatFormat.SplitCount | ChatInterface.tsx:28 | there is one part more than there are separators |
| ChatFormat.CloseFrom | ChatInterface.tsx:32 | the lazy `.*?` stops at the first `**` and never crosses a line terminator |
| ChatFormat.MatchAt | ChatInterface.tsx:32 | a bold match is at least four characters long and inside the line |
| ChatFormat.MatchIsSpan | ChatInterface.tsx:32 | the text of a match is a bold span |
| ChatFormat.NoSpanInSlice | ChatInterface.tsx:32 | a stretch where no match starts contains no bold span |
| ChatFormat.SplitBoldFrom | ChatInterface.tsx:32 | split with the capturing group alternates: text without a span, then a span, …, ending with text; the parts concatenate to the line |
| ChatFormat.SplitBold | ChatInterface.tsx:32 | `line.split(/(\*\*.*?\*\*)/g)` from the start of the line; its shape is stated by SplitBoldFrom |
| ChatFormat.SliceInside | ChatInterface.tsx:37 | `slice(from, -fromEnd)` is the inner slice, or empty when the bounds cross |
| ChatFormat.RenderPart | ChatInterface.tsx:36-42 | one part: bold when it starts and ends with `**`, else code when it starts and ends with a backtick, else plain; stated by BoldSpanRendersBold, CodeLine and NoCodeLine |
| ChatFormat.RenderLine | ChatInterface.tsx:32-43 | one paragraph: each part of the bold split rendered in order; stated by RenderLineBold, StarFreeLine, PlainLine and BoldWord |
| ChatFormat.Render | ChatInterface.tsx:28-46 | the whole message: one rendered paragraph per `\n`-separated line; stated by ParagraphPerLine |
| ChatFormat.ParagraphPerLine | ChatInterface.tsx:28-31 | one paragraph per newline-separated line |
| ChatFormat.BoldSpanRendersBold | ChatInterface.tsx:36-37 | a bold span renders bold, with its inner text |
| ChatFormat.RenderLineBold | ChatInterface.tsx:32-37 | every odd part of a line renders bold with the text between its stars |
| ChatFormat.PlainLine | ChatInterface.tsx:32-42 | a line without `*` or backtick renders as itself, plain |
| ChatFormat.StarFreeLine | ChatInterface.tsx:32-42 | a line without an asterisk is not split and renders as one part |
| ChatFormat.CodeLine | ChatInterface.tsx:39-40 | a star-free line that starts and ends with a backtick renders as one code segment of its inside, however many backticks it holds |
| ChatFormat.NoCodeLine | ChatInterface.tsx:39-42 | a star-free line that does not both start and end with a backtick renders as itself, plain, inner backticks included |
| ChatFormat.CodeSpansMerge | ChatInterface.tsx:39-40 | "`a` and `b`" renders as one code segment "a` and `b" |
| ChatFormat.InlineCodeStaysPlain | ChatInterface.tsx:39-42 | "use `x` here" renders as plain text with its backticks |
| ChatFormat.CloseAfterPlain | ChatInterface.tsx:32 | with no star and no terminator before the next `**`, the lazy close is that `**` |
| ChatFormat.BoldWordSpan | ChatInterface.tsx:32 | `**w**` for a star-free single-line w is one match over the whole text |
| ChatFormat.BoldWordParts | ChatInterface.tsx:32 | `**w**` splits into empty text, the span, empty text |
| ChatFormat.BoldWord | ChatInterface.tsx:32-37 | `**w**` renders as empty, bold w, empty |
| ChatFormat.LoneStarsVanish | ChatInterface.tsx:32-37 | a line that is just `**` renders as one empty bold element |
| ChatInterface.Welcome | ChatInterface.tsx:52-58 | the welcome bubble has id "welcome" and the model role; its text is the fixed head, then the profile name, then the fixed tail |
| ChatInterface.UserMessage | ChatInterface.tsx:103-108 | the user bubble: the input as typed, untrimmed, with the pending files; HistoryEndsWithUserTurn states what the history sends of it |
| ChatInterface.Turns | ChatInterface.tsx:144 | the history sent keeps each message's role and content, in order |
| ChatInterface.HistoryEndsWithUserTurn | ChatInterface.tsx:143-144 | the history sent ends with the user's new message |
| ChatInterface.ChatReply | ChatInterface.tsx:150-155 | the reply holds the response text, or the fallback sentence when it is missing or empty; grounding is attached iff there are chunks |
| ChatInterface.ImageReply | ChatInterface.tsx:124-130 | the image bubble: "Image generated for: **prompt**", kind image, one generated.png file at the image URL with empty data |
| ChatInterface.VideoReply | ChatInterface.tsx:135-141 | the video bubble: "Video created for: **prompt**", kind video, one generated.mp4 file at the video URL with empty data |
| ChatInterface.ErrorReply | ChatInterface.tsx:159-163 | the error bubble with the connection-error sentence |
| ChatInterface.DataPart | ChatInterface.tsx:88 | `dataUrl.split(',')[1]`, undefined when there is no comma; stated by DataPartMissingIffNoComma and DataPartOfDataUrl |
| ChatInterface.Attachment | ChatInterface.tsx:90-95 | the pending file built from a picked file: its name, its type, the data part of its data URL, and the data URL |
| ChatInterface.DataPartMissingIffNoComma | ChatInterface.tsx:88 | `dataUrl.split(',')[1]` is undefined iff the URL has no comma |
| ChatInterface.DataPartOfDataUrl | ChatInterface.tsx:88 | for a data URL built from comma-free parts, the part after the comma is the base64 data |
| ChatInterface.PendingFor | ChatInterface.tsx:116-146 | the pending call is image, video or chat exactly as the input classifies |
| ChatInterface.ImageKeywordWins | ChatInterface.tsx:120-122 | an input starting with an image keyword asks for an image of the rest, trimmed |
| ChatInterface.VideoKeywordSelectsVideo | ChatInterface.tsx:132-134 | an input starting with a video keyword, and with no image keyword, asks for a video of the rest, trimmed |
| ChatInterface.ChatScreen.constructor | ChatInterface.tsx:52-66 | the screen starts with only the welcome bubble, empty input, no files, nothing loading and every toggle off |
| ChatInterface.ChatScreen.SetInput | ChatInterface.tsx:307 | the input takes the typed text; nothing else changes |
| ChatInterface.ChatScreen.ToggleThinking | ChatInterface.tsx:189 | thinking flips; nothing else changes |
| ChatInterface.ChatScreen.ToggleSearch | ChatInterface.tsx:199 | search flips; nothing else changes |
| ChatInterface.ChatScreen.ToggleMaps | ChatInterface.tsx:209 | maps flips; nothing else changes |
| ChatInterface.ChatScreen.UploadFiles | ChatInterface.tsx:75-98 | no file list changes nothing; otherwise one attachment per file, in order, is appended after the files already pending |
| ChatInterface.ChatScreen.BeginSend | ChatInterface.tsx:100-113 | a refused send changes nothing; an accepted one appends the user message, clears input and files, sets loading, and starts the call the input classifies as, with the history including the new message |
| ChatInterface.ChatScreen.KeyDown | ChatInterface.tsx:308 | Enter without Shift does exactly what BeginSend does: refused, nothing changes; accepted, the user message is appended, input and files are cleared, loading starts and the classified call is returned; any other key changes nothing |
| ChatInterface.ChatScreen.FinishSend | ChatInterface.tsx:115-166 | a failed call appends the connection-error bubble; otherwise video appends the video bubble, chat appends the chat reply, and image appends the image bubble for the first inline part or nothing when there is none; the chat request goes out iff chat with a client; loading ends false |

## Left out

- App.tsx (the profile in `localStorage` and screen switching) is not part of this model.
- `btoa` and `atob` (base64) are not modelled. The model works on the binary strings on either side of them. Whether `atob` accepted a payload is a parameter of `onmessage`.
- Network calls are not modelled. Their outcomes are parameters of the model: the chat response text and grounding chunks, the image response parts, the video URL, and whether a call rejected (`Response`).
- `generateVideo` is not modelled: its polling loop and `fetch` are network I/O. Its outcome is the `videoUrl` parameter, and its failure is part of `Response.fails`.
- `getUserMedia`, `AudioContext`, `connect` and the script processor graph become entries in the effect log and are not simulated. Whether the microphone was granted is a parameter. The 4096-sample block size is not fixed, because the capture step takes a block of any length.
- Floating point is modelled as exact reals. Samples are assumed finite, with no NaN or infinity. Exactness holds for the capture scaling, because multiplying a float32 by 2^15 is exact.
- `createBuffer` with a fractional frame count is not modelled. This only arises with more than one channel and an odd sample count. The model uses integer division for the frame count, and the program always decodes mono.
- The Int16 views assume a little-endian platform, as every browser is.
- Async interleaving is not modelled: each callback is one atomic step. `handleSendMessage` is split at its `await` into `BeginSend` and `FinishSend`. The `FileReader` awaits inside `handleFileUpload` are taken as completed in order.
- `Date.now()` ids are parameters (`userId`, `replyId`).
- The `onerror` and `onclose` callbacks are not modelled, because they only log.
- JSX layout is not modelled, nor are `showLive`, `sidebarOpen` or scrolling. Rendering is reduced to the segment list that `FormattedText` produces.
- The system instruction texts are opaque constants.
- ChatCommands.Lower: only ASCII letters are lower-cased, not all of `toLowerCase`. Classification is still exact, because every keyword is ASCII lower-case or Arabic, and Arabic letters have no case.
- ChatCommands.FirstAlternative: the `/i` flag of the replace is modelled as ASCII case folding, which is exact for these keywords for the same reason.
- ChatInterface.DataPart: it takes the text between the first and second comma. This matches `split(',')[1]`.
- ChatInterface.ChatScreen.FinishSend: a failure is modelled as a single boolean per call. The model does not record which awaited step threw.

- GeminiService.GenerateImage: the `aspectRatio` parameter with default "1:1" is fixed at that default, because no caller passes it.
- The `maxLength` (2, 2, 4) and `required` attributes of the onboarding inputs are enforced by the browser and are not modelled: the setters accept a value of any length, and Submit checks only the four non-empty conditions the handler checks.

Behaviour of the code that a reader might not expect, modelled as written:

- A full-scale sample is not clamped. The code stores `inputData[i] * 32768` into an `Int16Array`, which wraps, so 1.0 becomes -32768 where a clamping conversion would store 32767 (LiveBytes.FullScaleWraps).
- Playback is gap-free only while chunks arrive in time. The code starts a chunk at `max(cursor, now)`, so a chunk starts exactly when the previous one ends only when it arrives before that moment; a late chunk leaves a gap (LiveFacts.TimelineGapFree).
- The picker's restart and the capture callback read the values of the render they were created in. So a new voice takes effect only on the following restart, and the mute button does not reach a running capture pipeline (LiveFacts.PickVoiceUsesPreviousVoice, LiveFacts.MuteToggleNotSeen).
- Stopping is not idempotent. The unmount cleanup closes the session and the output context without clearing the refs, so running it twice closes them twice, and `startSession` closes the stored session again on every restart (LiveComponent.LiveView.Unmount).
- Chunks that arrive from a superseded session are not told apart from chunks of the current session: the code has no staleness check.

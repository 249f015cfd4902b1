/** The realtime voice screen of LiveView.tsx as a state machine: the playback cursor
    and the set of scheduled sources, barge-in cancellation, the session (re)start
    sequence, the capture callbacks and the voice picker. Every callback of the source
    is one atomic step. Calls into the Web Audio engine, the microphone and the
    streaming transport are recorded, in order, in an effect log. */
module LiveSession {
  import opened Results
  import opened LiveBytes
  import GeminiService

  // ------------------------------------------------------------ catalog and constants

  datatype VoiceOption = VoiceOption(id: string, name: string)

  /** `VOICES`. */
  const Voices: seq<VoiceOption> := [
    VoiceOption("Puck", "Puck (Energetic)"),
    VoiceOption("Charon", "Charon (Gentle)"),
    VoiceOption("Kore", "Kore (Balanced)"),
    VoiceOption("Fenrir", "Fenrir (Deep)"),
    VoiceOption("Zephyr", "Zephyr (Soft)")
  ]

  const InitialVoice := "Puck"

  predicate IsVoice(id: string) {
    exists i :: 0 <= i < |Voices| && Voices[i].id == id
  }

  const PcmMimeType := "audio/pcm;rate=16000"
  const OutputSampleRate: nat := 24000
  const OutputChannels: nat := 1

  // ------------------------------------------------------------ state

  type SourceId = nat

  /** Index of a `connect` call in `LiveState.connections`. */
  type SessionId = nat

  /** `{ data, mimeType }` of `sendRealtimeInput`; `data` is the binary string that
      `btoa` turns into base64. */
  datatype Frame = Frame(data: string, mimeType: string)

  datatype Effect =
    | StartSource(source: SourceId, when: real, duration: real)  // source.start(when)
    | StopSource(source: SourceId)                               // s.stop(), errors swallowed
    | CloseSession(session: SessionId)                           // sessionRef.current.close()
    | OpenInputContext                                           // new AudioContext at 16 kHz
    | OpenOutputContext                                          // new AudioContext at 24 kHz
    | RequestMicrophone                                          // getUserMedia({ audio: true })
    | Connect(session: SessionId, voice: string)                 // ai.live.connect(...)
    | SendAudio(session: SessionId, frame: Frame)                // s.sendRealtimeInput(...)
    | StopTracks                                                 // stream tracks stopped on unmount
    | CloseOutputContext                                         // output context closed on unmount

  /** What one `startSession` call captured from its render: the voice sent to the
      server and the mute flag its capture callback reads. */
  datatype Connection = Connection(voice: string, muted: bool)

  datatype LiveState = LiveState(
    isMuted: bool,
    isConnecting: bool,
    selectedVoice: string,
    showVoicePicker: bool,
    cursor: real,                 // nextStartTimeRef
    sources: seq<SourceId>,       // sourcesRef, in insertion order
    nextSource: nat,              // the next fresh buffer-source id
    session: Option<SessionId>,   // sessionRef
    hasStream: bool,              // streamRef is set
    hasOutputContext: bool,       // audioContextRef is set
    connections: seq<Connection>, // every connect call so far
    pipelines: seq<SessionId>,    // capture processors installed by onopen, never removed
    effects: seq<Effect>)

  predicate Distinct(s: seq<SourceId>) {
    forall i, j :: 0 <= i < j < |s| ==> s[i] != s[j]
  }

  ghost predicate Valid(st: LiveState) {
    && st.cursor >= 0.0
    && Distinct(st.sources)
    && (forall i :: 0 <= i < |st.sources| ==> st.sources[i] < st.nextSource)
    && (st.session.Some? ==> st.session.value < |st.connections|)
    && (forall i :: 0 <= i < |st.pipelines| ==> st.pipelines[i] < |st.connections|)
    && IsVoice(st.selectedVoice)
    && (forall i :: 0 <= i < |st.connections| ==> IsVoice(st.connections[i].voice))
  }

  /** The state on mount, before the effect hook calls `startSession`. */
  function Initial(): (st: LiveState)
    ensures Valid(st)
  {
    assert Voices[0].id == InitialVoice;
    LiveState(false, true, InitialVoice, false, 0.0, [], 0, None, false, false, [], [], [])
  }

  function Max(a: real, b: real): real {
    if a >= b then a else b
  }

  // ------------------------------------------------------------ the tracking set

  /** `sourcesRef.current.delete(id)`. */
  function Remove(s: seq<SourceId>, id: SourceId): (r: seq<SourceId>)
    ensures forall x :: x in r <==> x in s && x != id
    ensures id !in s ==> r == s
  {
    if s == [] then []
    else if s[0] == id then Remove(s[1..], id)
    else [s[0]] + Remove(s[1..], id)
  }

  lemma DistinctTail(s: seq<SourceId>)
    requires Distinct(s) && s != []
    ensures Distinct(s[1..]) && s[0] !in s[1..]
  {
    var rest := s[1..];
    forall i, j | 0 <= i < j < |rest| ensures rest[i] != rest[j] {
      assert rest[i] == s[i + 1] && rest[j] == s[j + 1];
    }
    assert forall i :: 0 <= i < |rest| ==> rest[i] == s[i + 1] != s[0];
  }

  lemma DistinctCons(x: SourceId, s: seq<SourceId>)
    requires x !in s && Distinct(s)
    ensures Distinct([x] + s)
  {
    var t := [x] + s;
    forall i, j | 0 <= i < j < |t| ensures t[i] != t[j] {
      assert t[j] == s[j - 1];
      if i > 0 {
        assert t[i] == s[i - 1];
      }
    }
  }

  /** Deleting from the tracking set keeps its entries distinct. */
  lemma {:induction false} RemoveKeepsDistinct(s: seq<SourceId>, id: SourceId)
    requires Distinct(s)
    ensures Distinct(Remove(s, id))
  {
    if s != [] {
      DistinctTail(s);
      RemoveKeepsDistinct(s[1..], id);
      if s[0] != id {
        DistinctCons(s[0], Remove(s[1..], id));
      }
    }
  }

  /** One `stop()` call per tracked source, in the set's iteration order. */
  function StopEffects(sources: seq<SourceId>): seq<Effect> {
    seq(|sources|, i requires 0 <= i < |sources| => StopSource(sources[i]))
  }

  /** `stopAllSources`. */
  function StopAll(st: LiveState): LiveState {
    st.(sources := [], cursor := 0.0, effects := st.effects + StopEffects(st.sources))
  }

  /** `source.onended`: the finished source leaves the tracking set. */
  function OnEnded(st: LiveState, id: SourceId): LiveState {
    st.(sources := Remove(st.sources, id))
  }

  // ------------------------------------------------------------ inbound messages

  /** `parts[0]?.inlineData?.data`. */
  datatype LivePart = LivePart(inlineData: Option<string>)
  datatype ModelTurn = ModelTurn(parts: Option<seq<LivePart>>)
  datatype ServerContent = ServerContent(modelTurn: Option<ModelTurn>, interrupted: bool)
  datatype ServerMessage = ServerMessage(serverContent: Option<ServerContent>)

  /** `message.serverContent?.modelTurn?.parts[0]?.inlineData?.data`. A model turn without
      `parts` makes `parts[0]` throw a TypeError (`Err`). */
  function AudioPayload(msg: ServerMessage): Result<Option<string>, string> {
    match msg.serverContent
    case None => Ok(None)
    case Some(content) =>
      match content.modelTurn
      case None => Ok(None)
      case Some(turn) =>
        if turn.parts.None? then Err("TypeError")
        else if |turn.parts.value| == 0 then Ok(None)
        else Ok(turn.parts.value[0].inlineData)
  }

  /** `message.serverContent?.interrupted`. */
  predicate Interrupted(msg: ServerMessage) {
    msg.serverContent.Some? && msg.serverContent.value.interrupted
  }

  /** Either the handler ran to its end, or it was rejected (a throw inside the async
      handler) leaving the state it had reached. */
  datatype Handled = Completed(state: LiveState) | Rejected(state: LiveState)

  /** Lines 109-117 for a non-empty payload. `binary` is what `atob` returned for it
      (`None`: it threw). The cursor is raised to the clock before decoding, so a frame
      that fails to decode still leaves it at `max(cursor, now)`. */
  function ScheduleAudio(st: LiveState, binary: Option<string>, now: real): Handled {
    var start := Max(st.cursor, now);
    var raised := st.(cursor := start);
    if binary.None? then Rejected(raised)
    else
      match DecodePcm(BytesOf(binary.value), OutputSampleRate, OutputChannels)
      case Err(_) => Rejected(raised)
      case Ok(buffer) =>
        var d := Duration(buffer);
        Completed(raised.(
          cursor := start + d,
          sources := st.sources + [st.nextSource],
          nextSource := st.nextSource + 1,
          effects := st.effects + [StartSource(st.nextSource, start, d)]))
  }

  /** The `onmessage` callback; `now` is `outputCtx.currentTime`. */
  function OnMessage(st: LiveState, msg: ServerMessage, binary: Option<string>, now: real): LiveState {
    match AudioPayload(msg)
    case Err(_) => st
    case Ok(payload) =>
      var handled := if payload.Some? && payload.value != "" then ScheduleAudio(st, binary, now) else Completed(st);
      match handled
      case Rejected(s) => s
      case Completed(s) => if Interrupted(msg) then StopAll(s) else s
  }

  // ------------------------------------------------------------ session lifecycle

  /** The first lines of `startSession`: connecting is set, playback is cleared and any
      prior session is closed. */
  function TornDown(st: LiveState): LiveState {
    var s1 := StopAll(st.(isConnecting := true));
    if s1.session.Some? then s1.(effects := s1.effects + [CloseSession(s1.session.value)]) else s1
  }

  /** `startSession`, up to the pending `connect` promise. `voice` and `muted` are the
      values of the render that created the function; `apiKey` is the environment's key;
      `micGranted` is whether `getUserMedia` resolves, when it is asked at all. */
  function StartSession(st: LiveState, voice: string, muted: bool, apiKey: Option<string>, micGranted: bool): LiveState {
    var s2 := TornDown(st);
    if GeminiService.GetClient(apiKey).Err? then
      s2.(isConnecting := false)
    else
      var s4 := Acquire(s2, micGranted);
      if s4.hasStream then Connected(s4, voice, muted) else s4
  }

  /** The contexts and the microphone: the input context is always new, the output
      context and the stream are reused when present. A refused microphone ends the
      attempt in the catch block. */
  function Acquire(st: LiveState, micGranted: bool): LiveState {
    var s3 := st.(
      effects := st.effects + [OpenInputContext] + (if st.hasOutputContext then [] else [OpenOutputContext]),
      hasOutputContext := true);
    if s3.hasStream then s3
    else if micGranted then s3.(effects := s3.effects + [RequestMicrophone], hasStream := true)
    else s3.(effects := s3.effects + [RequestMicrophone], isConnecting := false)
  }

  /** `ai.live.connect` with the render's voice; the new connection remembers the render's
      mute flag for its capture callback. */
  function Connected(st: LiveState, voice: string, muted: bool): LiveState {
    st.(
      effects := st.effects + [Connect(|st.connections|, voice)],
      connections := st.connections + [Connection(voice, muted)])
  }

  /** The connection `id` opened: `onopen` installs its capture processor and the
      awaited promise stores the session in `sessionRef`. */
  function OnOpen(st: LiveState, id: SessionId): LiveState {
    st.(isConnecting := false, pipelines := st.pipelines + [id], session := Some(id))
  }

  /** The `connect` promise was rejected: the catch block clears the connecting flag. */
  function OnConnectFailed(st: LiveState): LiveState {
    st.(isConnecting := false)
  }

  /** `onaudioprocess` of capture processor `p` on one block of float samples. */
  function OnAudioProcess(st: LiveState, p: nat, block: seq<real>): LiveState
    requires p < |st.pipelines| && st.pipelines[p] < |st.connections|
  {
    var id := st.pipelines[p];
    if st.connections[id].muted then st
    else st.(effects := st.effects + [SendAudio(id, Frame(BinaryOf(PcmBytes(BlockSamples(block))), PcmMimeType))])
  }

  function ToggleMute(st: LiveState): LiveState {
    st.(isMuted := !st.isMuted)
  }

  function OpenVoicePicker(st: LiveState): LiveState {
    st.(showVoicePicker := true)
  }

  /** A voice button: set the voice, hide the picker, and call `startSession` from the
      same render, which still holds the previous voice. */
  function PickVoice(st: LiveState, v: string, apiKey: Option<string>, micGranted: bool): LiveState {
    StartSession(st.(selectedVoice := v, showVoicePicker := false), st.selectedVoice, st.isMuted, apiKey, micGranted)
  }

  /** The effect cleanup on unmount. The refs are not cleared. */
  function Unmount(st: LiveState): LiveState {
    st.(effects := st.effects
      + (if st.hasStream then [StopTracks] else [])
      + (if st.session.Some? then [CloseSession(st.session.value)] else [])
      + (if st.hasOutputContext then [CloseOutputContext] else []))
  }
}

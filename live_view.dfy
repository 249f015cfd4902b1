/** The LiveView component as an object: its state hooks and refs are fields, and each
    callback is a method that updates them in place. Every method is proved to perform
    exactly the step of the `LiveSession` state machine, so the properties proved there
    (scheduling, barge-in, the restart sequence, the capture gate) hold of the object. */
module LiveComponent {
  import opened Results
  import opened LiveBytes
  import opened LiveSession
  import LiveFacts
  import GeminiService

  class LiveView {
    var isMuted: bool
    var isConnecting: bool
    var selectedVoice: string
    var showVoicePicker: bool
    var nextStartTime: real            // nextStartTimeRef
    var sources: seq<SourceId>         // sourcesRef, in insertion order
    var nextSource: nat                // id of the next buffer source created
    var session: Option<SessionId>     // sessionRef
    var hasStream: bool                // streamRef is set
    var hasOutputContext: bool         // audioContextRef is set
    var connections: seq<Connection>   // every connect call so far
    var pipelines: seq<SessionId>      // capture processors installed by onopen
    var effects: seq<Effect>           // calls into the engine, devices and transport

    function State(): LiveState
      reads this
    {
      LiveState(isMuted, isConnecting, selectedVoice, showVoicePicker, nextStartTime, sources,
        nextSource, session, hasStream, hasOutputContext, connections, pipelines, effects)
    }

    ghost predicate Valid()
      reads this
    {
      LiveSession.Valid(State())
    }

    /** The component on mount, before its effect hook runs. */
    constructor ()
      ensures State() == Initial() && Valid()
    {
      isMuted := false;
      isConnecting := true;
      selectedVoice := InitialVoice;
      showVoicePicker := false;
      nextStartTime := 0.0;
      sources := [];
      nextSource := 0;
      session := None;
      hasStream := false;
      hasOutputContext := false;
      connections := [];
      pipelines := [];
      effects := [];
    }

    /** `stopAllSources`: stop every tracked source in the set's order, clear the set,
        reset the cursor. */
    method StopAllSources()
      modifies this
      ensures State() == StopAll(old(State()))
    {
      var tracked := sources;
      var i := 0;
      while i < |tracked|
        invariant 0 <= i <= |tracked|
        invariant State() == old(State()).(effects := effects)
        invariant |effects| == |old(effects)| + i
        invariant effects[..|old(effects)|] == old(effects)
        invariant forall j :: 0 <= j < i ==> effects[|old(effects)| + j] == StopSource(tracked[j])
      {
        effects := effects + [StopSource(tracked[i])];
        i := i + 1;
      }
      assert effects == old(effects) + StopEffects(tracked);
      sources := [];
      nextStartTime := 0.0;
    }

    /** `source.onended`. */
    method OnEnded(id: SourceId)
      requires Valid()
      modifies this
      ensures State() == LiveSession.OnEnded(old(State()), id) && Valid()
    {
      LiveFacts.OnEndedKeepsValid(State(), id);
      sources := Remove(sources, id);
    }

    /** `onmessage`; `binary` is what `atob` returned for the payload (`None`: it threw)
        and `now` is the output context's clock. */
    method OnMessage(msg: ServerMessage, binary: Option<string>, now: real)
      requires Valid() && now >= 0.0
      modifies this
      ensures State() == LiveSession.OnMessage(old(State()), msg, binary, now) && Valid()
    {
      LiveFacts.OnMessageKeepsValid(State(), msg, binary, now);
      var payload := AudioPayload(msg);
      if payload.Err? {
        return;
      }
      if payload.value.Some? && payload.value.value != "" {
        var completed := PlayAudio(binary, now);
        if !completed {
          return;
        }
      }
      if Interrupted(msg) {
        StopAllSources();
      }
    }

    /** The audio branch of `onmessage`: raise the cursor to the clock, decode, start the
        buffer at the cursor, advance the cursor by its duration and track the source.
        `completed` is false when `atob` or the decoder threw. */
    method PlayAudio(binary: Option<string>, now: real) returns (completed: bool)
      modifies this
      ensures State() == ScheduleAudio(old(State()), binary, now).state
      ensures completed <==> ScheduleAudio(old(State()), binary, now).Completed?
    {
      nextStartTime := Max(nextStartTime, now);
      if binary.None? {
        return false;
      }
      var bytes := Decode(binary.value);
      var decoded := DecodeAudioData(bytes, OutputSampleRate, OutputChannels);
      if decoded.Err? {
        return false;
      }
      var duration := Duration(decoded.value);
      effects := effects + [StartSource(nextSource, nextStartTime, duration)];
      nextStartTime := nextStartTime + duration;
      sources := sources + [nextSource];
      nextSource := nextSource + 1;
      return true;
    }

    /** `onaudioprocess` of capture processor `p` on one block of float samples. */
    method OnAudioProcess(p: nat, block: seq<real>)
      requires p < |pipelines| && pipelines[p] < |connections|
      modifies this
      ensures State() == LiveSession.OnAudioProcess(old(State()), p, block)
    {
      var id := pipelines[p];
      if connections[id].muted {
        return;
      }
      var data := EncodeBlock(block);
      effects := effects + [SendAudio(id, Frame(data, PcmMimeType))];
    }

    /** `startSession`, up to the pending `connect` promise. */
    method StartSession(voice: string, muted: bool, apiKey: Option<string>, micGranted: bool)
      requires Valid() && IsVoice(voice)
      modifies this
      ensures State() == LiveSession.StartSession(old(State()), voice, muted, apiKey, micGranted) && Valid()
    {
      LiveFacts.StartSessionKeepsValid(State(), voice, muted, apiKey, micGranted);
      TearDown();
      var client := GeminiService.GetClient(apiKey);
      if client.Err? {
        isConnecting := false;
        return;
      }
      AcquireDevices(micGranted);
      if hasStream {
        ConnectSession(voice, muted);
      }
    }

    /** Connecting is set, playback cleared, the prior session closed. */
    method TearDown()
      modifies this
      ensures State() == TornDown(old(State()))
    {
      isConnecting := true;
      StopAllSources();
      if session.Some? {
        effects := effects + [CloseSession(session.value)];
      }
    }

    /** The audio contexts and the microphone stream. */
    method AcquireDevices(micGranted: bool)
      modifies this
      ensures State() == Acquire(old(State()), micGranted)
    {
      effects := effects + [OpenInputContext];
      if !hasOutputContext {
        effects := effects + [OpenOutputContext];
      }
      hasOutputContext := true;
      if !hasStream {
        effects := effects + [RequestMicrophone];
        if micGranted {
          hasStream := true;
        } else {
          isConnecting := false;
        }
      }
    }

    /** `ai.live.connect`. */
    method ConnectSession(voice: string, muted: bool)
      modifies this
      ensures State() == Connected(old(State()), voice, muted)
    {
      effects := effects + [Connect(|connections|, voice)];
      connections := connections + [Connection(voice, muted)];
    }

    /** `onopen` of connection `id`, and the awaited promise storing the session. */
    method OnOpen(id: SessionId)
      requires Valid() && id < |connections|
      modifies this
      ensures State() == LiveSession.OnOpen(old(State()), id) && Valid()
    {
      isConnecting := false;
      pipelines := pipelines + [id];
      session := Some(id);
    }

    /** The catch block of `startSession` after a rejected `connect`. */
    method OnConnectFailed()
      modifies this
      ensures State() == LiveSession.OnConnectFailed(old(State()))
    {
      isConnecting := false;
    }

    method ToggleMute()
      modifies this
      ensures State() == LiveSession.ToggleMute(old(State()))
    {
      isMuted := !isMuted;
    }

    method OpenVoicePicker()
      modifies this
      ensures State() == LiveSession.OpenVoicePicker(old(State()))
    {
      showVoicePicker := true;
    }

    /** A voice button: the handler's render still holds the previous voice and mute flag,
        and those are what `startSession` sends. */
    method PickVoice(v: string, apiKey: Option<string>, micGranted: bool)
      requires Valid() && IsVoice(v)
      modifies this
      ensures State() == LiveSession.PickVoice(old(State()), v, apiKey, micGranted) && Valid()
    {
      var renderedVoice := selectedVoice;
      var renderedMute := isMuted;
      selectedVoice := v;
      showVoicePicker := false;
      StartSession(renderedVoice, renderedMute, apiKey, micGranted);
    }

    /** The effect cleanup on unmount. */
    method Unmount()
      modifies this
      ensures State() == LiveSession.Unmount(old(State()))
    {
      if hasStream {
        effects := effects + [StopTracks];
      }
      if session.Some? {
        effects := effects + [CloseSession(session.value)];
      }
      if hasOutputContext {
        effects := effects + [CloseOutputContext];
      }
    }
  }
}

/** Properties of the LiveView state machine: scheduling, barge-in, the tracking set,
    the session (re)start sequence and the capture gate. */
module LiveFacts {
  import opened Results
  import opened LiveBytes
  import opened LiveSession
  import GeminiService

  // ------------------------------------------------------------ stopAllSources

  /** `stopAllSources` stops every tracked source once, in the set's order, then leaves
      the set empty and the cursor at 0. */
  lemma StopAllStopsEach(st: LiveState)
    ensures StopAll(st).sources == [] && StopAll(st).cursor == 0.0
    ensures |StopAll(st).effects| == |st.effects| + |st.sources|
    ensures StopAll(st).effects[..|st.effects|] == st.effects
    ensures forall i :: 0 <= i < |st.sources| ==>
      StopAll(st).effects[|st.effects| + i] == StopSource(st.sources[i])
    ensures forall x :: StopSource(x) in StopAll(st).effects[|st.effects|..] <==> x in st.sources
  {
    var added := StopAll(st).effects[|st.effects|..];
    assert added == StopEffects(st.sources);
    forall x ensures StopSource(x) in added <==> x in st.sources {
      if x in st.sources {
        var i :| 0 <= i < |st.sources| && st.sources[i] == x;
        assert added[i] == StopSource(x);
      }
    }
  }

  /** Calling `stopAllSources` twice is the same as calling it once. */
  lemma StopAllIdempotent(st: LiveState)
    ensures StopAll(StopAll(st)) == StopAll(st)
  {
    assert StopEffects([]) == [];
    assert StopAll(st).effects + [] == StopAll(st).effects;
  }

  /** An `onended` for a source the set no longer holds changes nothing; in particular
      the `onended` that follows a forced stop is harmless. */
  lemma EndedAfterStopIsNoOp(st: LiveState, id: SourceId)
    ensures id !in st.sources ==> OnEnded(st, id) == st
    ensures OnEnded(StopAll(st), id) == StopAll(st)
  {
  }

  /** `onended` removes exactly the finished source and keeps the others in order. */
  lemma {:induction false} EndedRemovesOnlyThatSource(s: seq<SourceId>, k: nat)
    requires Distinct(s) && k < |s|
    ensures Remove(s, s[k]) == s[..k] + s[k + 1..]
  {
    DistinctTail(s);
    var rest := s[1..];
    var id := s[k];
    if k == 0 {
      assert Remove(s, id) == Remove(rest, id);
      assert s[..0] + s[1..] == rest;
    } else {
      assert s[0] != id;
      assert Remove(s, id) == [s[0]] + Remove(rest, id);
      assert rest[k - 1] == id;
      EndedRemovesOnlyThatSource(rest, k - 1);
      SplitAfterHead(s, k);
    }
  }

  lemma SplitAfterHead(s: seq<SourceId>, k: nat)
    requires 0 < k < |s|
    ensures s[..k] + s[k + 1..] == [s[0]] + (s[1..][..k - 1] + s[1..][k..])
  {
    assert s[..k] == [s[0]] + s[1..][..k - 1];
    assert s[1..][k..] == s[k + 1..];
  }

  // ------------------------------------------------------------ one inbound message

  /** The payload is present and non-empty, so the handler goes down the audio path. */
  predicate HasAudio(msg: ServerMessage) {
    var p := AudioPayload(msg);
    p.Ok? && p.value.Some? && p.value.value != ""
  }

  /** The payload `atob` produced decodes to a playable buffer. */
  predicate Decodes(binary: Option<string>) {
    binary.Some? && DecodePcm(BytesOf(binary.value), OutputSampleRate, OutputChannels).Ok?
  }

  function BufferOf(binary: Option<string>): AudioBuffer
    requires Decodes(binary)
  {
    DecodePcm(BytesOf(binary.value), OutputSampleRate, OutputChannels).value
  }

  /** The bookkeeping of one played message, whatever the state: one `start` at
      `max(cursor, now)`, the cursor moved on by the duration, the counter advanced. */
  lemma ScheduleStep(st: LiveState, a: Arrival)
    requires Plays(a)
    ensures var r := OnMessage(st, a.msg, a.binary, a.now);
      var slot := SlotOf(a);
      && r.effects == st.effects + [StartSource(st.nextSource, Max(st.cursor, slot.now), slot.duration)]
      && r.cursor == Max(st.cursor, slot.now) + slot.duration
      && r.nextSource == st.nextSource + 1
  {
  }

  /** Scheduling a decoded buffer: it starts at `max(cursor, now)`, the cursor moves on by
      exactly its duration and ends at or after the clock, and the fresh source joins the
      tracking set. */
  lemma ScheduleRule(st: LiveState, msg: ServerMessage, binary: Option<string>, now: real)
    requires Valid(st) && now >= 0.0
    requires HasAudio(msg) && Decodes(binary) && !Interrupted(msg)
    ensures var r := OnMessage(st, msg, binary, now);
      var d := Duration(BufferOf(binary));
      && d > 0.0
      && r.effects == st.effects + [StartSource(st.nextSource, Max(st.cursor, now), d)]
      && r.cursor == Max(st.cursor, now) + d
      && r.cursor > now && r.cursor > st.cursor
      && r.sources == st.sources + [st.nextSource]
      && st.nextSource !in st.sources
      && Valid(r)
  {
    var r := OnMessage(st, msg, binary, now);
    assert st.nextSource !in st.sources by {
      assert forall i :: 0 <= i < |st.sources| ==> st.sources[i] < st.nextSource;
    }
    assert Distinct(r.sources) by {
      forall i, j | 0 <= i < j < |r.sources| ensures r.sources[i] != r.sources[j] {
        if j == |st.sources| {
          assert r.sources[i] == st.sources[i] < st.nextSource;
        } else {
          assert r.sources[i] == st.sources[i] && r.sources[j] == st.sources[j];
        }
      }
    }
  }

  /** A message carrying `interrupted` ends with an empty tracking set and the cursor at
      0, even when it also carried audio: that buffer is started and then stopped along
      with everything else. */
  lemma InterruptClearsPlayback(st: LiveState, msg: ServerMessage, binary: Option<string>, now: real)
    requires Interrupted(msg) && AudioPayload(msg).Ok?
    requires HasAudio(msg) ==> Decodes(binary)
    ensures OnMessage(st, msg, binary, now).sources == []
    ensures OnMessage(st, msg, binary, now).cursor == 0.0
    ensures HasAudio(msg) ==>
      OnMessage(st, msg, binary, now).effects ==
        st.effects
        + [StartSource(st.nextSource, Max(st.cursor, now), Duration(BufferOf(binary)))]
        + StopEffects(st.sources + [st.nextSource])
    ensures !HasAudio(msg) ==> OnMessage(st, msg, binary, now).effects == st.effects + StopEffects(st.sources)
  {
  }

  /** A frame whose payload `atob` or the decoder rejects makes the async handler throw
      after the cursor was raised to the clock: the cursor becomes `max(cursor, now)`,
      nothing is scheduled, and an `interrupted` flag on the same message is never read. */
  lemma RejectedFrame(st: LiveState, msg: ServerMessage, binary: Option<string>, now: real)
    requires HasAudio(msg) && !Decodes(binary)
    ensures OnMessage(st, msg, binary, now) == st.(cursor := Max(st.cursor, now))
  {
  }

  /** A message whose model turn lacks `parts` throws before anything happens. */
  lemma MalformedTurnChangesNothing(st: LiveState, msg: ServerMessage, binary: Option<string>, now: real)
    requires AudioPayload(msg).Err?
    ensures OnMessage(st, msg, binary, now) == st
  {
  }

  // ------------------------------------------------------------ a run of messages

  datatype Arrival = Arrival(msg: ServerMessage, binary: Option<string>, now: real)

  /** A message that plays: it carries a decodable payload and no interruption. */
  predicate Plays(a: Arrival) {
    HasAudio(a.msg) && Decodes(a.binary) && !Interrupted(a.msg) && a.now >= 0.0
  }

  predicate AllPlay(arrivals: seq<Arrival>) {
    forall k :: 0 <= k < |arrivals| ==> Plays(arrivals[k])
  }

  /** What the scheduler sees of a playing message: the clock at its arrival and the
      duration of its decoded buffer. */
  datatype Slot = Slot(now: real, duration: real)

  function SlotOf(a: Arrival): (slot: Slot)
    requires Plays(a)
    ensures slot.now == a.now && slot.duration > 0.0
  {
    Slot(a.now, Duration(BufferOf(a.binary)))
  }

  function SlotsOf(arrivals: seq<Arrival>): (slots: seq<Slot>)
    requires AllPlay(arrivals)
    ensures |slots| == |arrivals|
  {
    seq(|arrivals|, k requires 0 <= k < |arrivals| => SlotOf(arrivals[k]))
  }

  lemma SlotsOfCons(arrivals: seq<Arrival>)
    requires AllPlay(arrivals) && arrivals != []
    ensures AllPlay(arrivals[1..])
    ensures SlotsOf(arrivals) == [SlotOf(arrivals[0])] + SlotsOf(arrivals[1..])
  {
    var rest := arrivals[1..];
    assert forall k :: 0 <= k < |rest| ==> rest[k] == arrivals[k + 1];
    assert SlotsOf(arrivals)[1..] == SlotsOf(rest);
  }

  predicate Positive(slots: seq<Slot>) {
    forall k :: 0 <= k < |slots| ==> slots[k].duration > 0.0
  }

  /** Messages handled one after the other. */
  function Feed(st: LiveState, arrivals: seq<Arrival>): LiveState
    decreases |arrivals|
  {
    if arrivals == [] then st
    else Feed(OnMessage(st, arrivals[0].msg, arrivals[0].binary, arrivals[0].now), arrivals[1..])
  }

  /** The reference timeline: each buffer starts when the previous one ends, or at the
      clock if that is later. */
  function StartTimes(cursor: real, slots: seq<Slot>): (starts: seq<real>)
    ensures |starts| == |slots|
    decreases |slots|
  {
    if slots == [] then []
    else
      var start := Max(cursor, slots[0].now);
      [start] + StartTimes(start + slots[0].duration, slots[1..])
  }

  /** No buffer starts before the clock read at its arrival, nor before the cursor the
      run started from. */
  lemma {:induction false} TimelineNotEarly(cursor: real, slots: seq<Slot>)
    requires Positive(slots)
    ensures forall k :: 0 <= k < |slots| ==>
      StartTimes(cursor, slots)[k] >= slots[k].now && StartTimes(cursor, slots)[k] >= cursor
    decreases |slots|
  {
    if slots != [] {
      var start := Max(cursor, slots[0].now);
      var next := start + slots[0].duration;
      var rest := slots[1..];
      TimelineNotEarly(next, rest);
      var starts := StartTimes(cursor, slots);
      var tail := StartTimes(next, rest);
      assert starts == [start] + tail;
      forall k | 0 <= k < |slots| ensures starts[k] >= slots[k].now && starts[k] >= cursor {
        if k > 0 {
          assert starts[k] == tail[k - 1] && slots[k] == rest[k - 1];
        }
      }
    }
  }

  /** Each buffer starts no earlier than the previous one ends, so the buffers play in
      arrival order and never overlap. */
  lemma {:induction false} TimelineBackToBack(cursor: real, slots: seq<Slot>)
    requires Positive(slots)
    ensures forall k :: 0 <= k < |slots| - 1 ==>
      StartTimes(cursor, slots)[k + 1] >= StartTimes(cursor, slots)[k] + slots[k].duration
    ensures forall k :: 0 <= k < |slots| - 1 ==> StartTimes(cursor, slots)[k + 1] > StartTimes(cursor, slots)[k]
    decreases |slots|
  {
    if slots != [] {
      var start := Max(cursor, slots[0].now);
      var next := start + slots[0].duration;
      var rest := slots[1..];
      TimelineBackToBack(next, rest);
      var starts := StartTimes(cursor, slots);
      var tail := StartTimes(next, rest);
      assert starts == [start] + tail;
      forall k | 0 <= k < |slots| - 1
        ensures starts[k + 1] >= starts[k] + slots[k].duration && starts[k + 1] > starts[k]
      {
        assert slots[k].duration > 0.0;
        assert starts[k + 1] == tail[k];
        if k == 0 {
          assert tail[0] == Max(next, rest[0].now);
        } else {
          assert starts[k] == tail[k - 1] && slots[k] == rest[k - 1];
        }
      }
    }
  }

  /** While the timeline is ahead of the clock, the next buffer starts exactly when the
      previous one ends: no gap. */
  lemma {:induction false} TimelineGapFree(cursor: real, slots: seq<Slot>)
    ensures forall k :: 0 <= k < |slots| - 1 ==>
      slots[k + 1].now <= StartTimes(cursor, slots)[k] + slots[k].duration ==>
        StartTimes(cursor, slots)[k + 1] == StartTimes(cursor, slots)[k] + slots[k].duration
    decreases |slots|
  {
    if slots != [] {
      var start := Max(cursor, slots[0].now);
      var next := start + slots[0].duration;
      var rest := slots[1..];
      TimelineGapFree(next, rest);
      var starts := StartTimes(cursor, slots);
      var tail := StartTimes(next, rest);
      assert starts == [start] + tail;
      forall k | 0 <= k < |slots| - 1 && slots[k + 1].now <= starts[k] + slots[k].duration
        ensures starts[k + 1] == starts[k] + slots[k].duration
      {
        assert starts[k + 1] == tail[k] && slots[k + 1] == rest[k];
        if k == 0 {
          assert tail[0] == Max(next, rest[0].now);
        } else {
          assert starts[k] == tail[k - 1] && slots[k] == rest[k - 1];
        }
      }
    }
  }

  /** The reference timeline of a run of playing messages. */
  function Timeline(cursor: real, arrivals: seq<Arrival>): seq<real>
    requires AllPlay(arrivals)
  {
    StartTimes(cursor, SlotsOf(arrivals))
  }

  /** One unfolding of the timeline of a run. */
  lemma TimelineCons(cursor: real, arrivals: seq<Arrival>)
    requires AllPlay(arrivals) && arrivals != []
    ensures AllPlay(arrivals[1..])
    ensures SlotsOf(arrivals) == [SlotOf(arrivals[0])] + SlotsOf(arrivals[1..])
    ensures Timeline(cursor, arrivals)
      == [Max(cursor, arrivals[0].now)]
         + Timeline(Max(cursor, arrivals[0].now) + SlotOf(arrivals[0]).duration, arrivals[1..])
  {
    SlotsOfCons(arrivals);
  }

  /** Handling a run of playing messages schedules exactly the reference timeline: one
      `start` per message, in arrival order, with consecutive source ids. */
  lemma {:induction false} FeedFollowsTimeline(st: LiveState, arrivals: seq<Arrival>)
    requires AllPlay(arrivals)
    ensures |Feed(st, arrivals).effects| == |st.effects| + |arrivals|
    ensures forall k :: 0 <= k < |arrivals| ==>
      Feed(st, arrivals).effects[|st.effects| + k]
        == StartSource(st.nextSource + k, Timeline(st.cursor, arrivals)[k], SlotsOf(arrivals)[k].duration)
    decreases |arrivals|
  {
    if arrivals != [] {
      var a := arrivals[0];
      var st1 := OnMessage(st, a.msg, a.binary, a.now);
      ScheduleStep(st, a);
      var rest := arrivals[1..];
      TimelineCons(st.cursor, arrivals);
      FeedFollowsTimeline(st1, rest);
      FeedKeepsLog(st1, rest);
      var log := Feed(st1, rest).effects;
      assert Feed(st, arrivals).effects == log;
      var n := |st.effects|;
      forall k | 0 <= k < |arrivals|
        ensures log[n + k]
          == StartSource(st.nextSource + k, Timeline(st.cursor, arrivals)[k], SlotsOf(arrivals)[k].duration)
      {
        if k > 0 {
          assert Timeline(st.cursor, arrivals)[k] == Timeline(st1.cursor, rest)[k - 1];
          assert SlotsOf(arrivals)[k] == SlotsOf(rest)[k - 1];
          assert log[n + k] == log[|st1.effects| + (k - 1)];
        } else {
          assert log[..|st1.effects|][n] == st1.effects[n];
        }
      }
    }
  }

  /** Handling playing messages only ever appends to the log of external calls. */
  lemma {:induction false} FeedKeepsLog(st: LiveState, arrivals: seq<Arrival>)
    requires AllPlay(arrivals)
    ensures |Feed(st, arrivals).effects| >= |st.effects|
    ensures Feed(st, arrivals).effects[..|st.effects|] == st.effects
    decreases |arrivals|
  {
    if arrivals != [] {
      var a := arrivals[0];
      var st1 := OnMessage(st, a.msg, a.binary, a.now);
      ScheduleStep(st, a);
      SlotsOfCons(arrivals);
      FeedKeepsLog(st1, arrivals[1..]);
      var log := Feed(st1, arrivals[1..]).effects;
      assert Feed(st, arrivals).effects == log;
      assert log[..|st.effects|] == log[..|st1.effects|][..|st.effects|];
    }
  }

  /** After the run the id counter has advanced once per message and the cursor sits
      where the last scheduled buffer ends. */
  lemma {:induction false} FeedEndsAtLastBuffer(st: LiveState, arrivals: seq<Arrival>)
    requires AllPlay(arrivals)
    ensures Feed(st, arrivals).nextSource == st.nextSource + |arrivals|
    ensures |arrivals| > 0 ==>
      Feed(st, arrivals).cursor == Timeline(st.cursor, arrivals)[|arrivals| - 1] + SlotsOf(arrivals)[|arrivals| - 1].duration
    decreases |arrivals|
  {
    if arrivals != [] {
      var a := arrivals[0];
      var st1 := OnMessage(st, a.msg, a.binary, a.now);
      ScheduleStep(st, a);
      var rest := arrivals[1..];
      TimelineCons(st.cursor, arrivals);
      FeedEndsAtLastBuffer(st1, rest);
      var n := |arrivals|;
      if n > 1 {
        assert Timeline(st.cursor, arrivals)[n - 1] == Timeline(st1.cursor, rest)[n - 2];
        assert SlotsOf(arrivals)[n - 1] == SlotsOf(rest)[n - 2];
      }
    }
  }

  /** The same run adds one fresh source per message to the tracking set, in arrival
      order, and keeps the state well formed. */
  lemma {:induction false} FeedTracksSources(st: LiveState, arrivals: seq<Arrival>)
    requires Valid(st) && AllPlay(arrivals)
    ensures Valid(Feed(st, arrivals))
    ensures |Feed(st, arrivals).sources| == |st.sources| + |arrivals|
    ensures Feed(st, arrivals).sources[..|st.sources|] == st.sources
    ensures forall k :: |st.sources| <= k < |Feed(st, arrivals).sources| ==>
      Feed(st, arrivals).sources[k] == st.nextSource + (k - |st.sources|)
    decreases |arrivals|
  {
    if arrivals != [] {
      var a := arrivals[0];
      var st1 := OnMessage(st, a.msg, a.binary, a.now);
      ScheduleRule(st, a.msg, a.binary, a.now);
      var rest := arrivals[1..];
      assert AllPlay(rest) by {
        assert forall k :: 0 <= k < |rest| ==> rest[k] == arrivals[k + 1];
      }
      FeedTracksSources(st1, rest);
      var r := Feed(st, arrivals);
      assert r == Feed(st1, rest);
      assert r.sources[..|st1.sources|] == st1.sources;
      forall k | |st.sources| <= k < |r.sources|
        ensures r.sources[k] == st.nextSource + (k - |st.sources|)
      {
        if k == |st.sources| {
          assert r.sources[k] == st1.sources[k];
        }
      }
    }
  }

  /** The example of a two-buffer reply cut off by barge-in: with the cursor at 0 and the
      clock at 0, two half-second buffers start at 0 and 0.5 (the second arriving at
      clock 0.1), and the interruption that follows empties the set and resets the
      cursor. */
  lemma TwoBuffersThenBargeIn(st: LiveState, first: Arrival, second: Arrival, stop: ServerMessage, now: real)
    requires st.cursor == 0.0
    requires Plays(first) && Plays(second) && first.now == 0.0 && second.now == 0.1
    requires BufferOf(first.binary).length == 12000 && BufferOf(second.binary).length == 12000
    requires Interrupted(stop) && AudioPayload(stop) == Ok(None)
    ensures Feed(st, [first, second]).effects
      == st.effects + [StartSource(st.nextSource, 0.0, 0.5), StartSource(st.nextSource + 1, 0.5, 0.5)]
    ensures Feed(st, [first, second]).cursor == 1.0
    ensures OnMessage(Feed(st, [first, second]), stop, None, now).sources == []
    ensures OnMessage(Feed(st, [first, second]), stop, None, now).cursor == 0.0
  {
    assert SlotOf(first) == Slot(0.0, 0.5) && SlotOf(second) == Slot(0.1, 0.5);
    var mid1 := OnMessage(st, first.msg, first.binary, first.now);
    ScheduleStep(st, first);
    var mid := OnMessage(mid1, second.msg, second.binary, second.now);
    ScheduleStep(mid1, second);
    assert Feed(st, [first, second]) == Feed(mid1, [second]) == Feed(mid, []) by {
      assert [first, second][1..] == [second];
      assert [second][1..] == [];
    }
    InterruptClearsPlayback(mid, stop, None, now);
  }

  // ------------------------------------------------------------ startSession

  /** What `startSession` emits before it looks at the key: every scheduled source is
      stopped, then any prior session is closed. */
  function Teardown(st: LiveState): seq<Effect> {
    StopEffects(st.sources) + (if st.session.Some? then [CloseSession(st.session.value)] else [])
  }

  /** `startSession` first stops every scheduled source and resets the cursor, then closes
      any prior session; whatever happens next, these come first and the session and
      capture processors are left as they were. */
  lemma StartSessionTearsDown(st: LiveState, voice: string, muted: bool, apiKey: Option<string>, micGranted: bool)
    ensures StartSession(st, voice, muted, apiKey, micGranted).sources == []
    ensures StartSession(st, voice, muted, apiKey, micGranted).cursor == 0.0
    ensures |StartSession(st, voice, muted, apiKey, micGranted).effects| >= |st.effects| + |Teardown(st)|
    ensures StartSession(st, voice, muted, apiKey, micGranted).effects[..|st.effects| + |Teardown(st)|]
      == st.effects + Teardown(st)
    ensures StartSession(st, voice, muted, apiKey, micGranted).session == st.session
    ensures StartSession(st, voice, muted, apiKey, micGranted).pipelines == st.pipelines
  {
    var s2 := TornDown(st);
    TornDownFacts(st);
    if GeminiService.GetClient(apiKey).Ok? {
      var s4 := Acquire(s2, micGranted);
      AcquireExtends(s2, micGranted);
      if s4.hasStream {
        ConnectedExtends(s4, voice, muted);
        PrefixTransitive(s2.effects, s4.effects, Connected(s4, voice, muted).effects);
      }
    }
  }

  lemma TornDownFacts(st: LiveState)
    ensures TornDown(st).effects == st.effects + Teardown(st)
    ensures TornDown(st).sources == [] && TornDown(st).cursor == 0.0
    ensures TornDown(st).session == st.session && TornDown(st).pipelines == st.pipelines
    ensures TornDown(st).connections == st.connections
    ensures TornDown(st).hasStream == st.hasStream && TornDown(st).hasOutputContext == st.hasOutputContext
  {
    assert StopAll(st.(isConnecting := true)).effects == st.effects + StopEffects(st.sources);
  }

  lemma AcquireExtends(st: LiveState, micGranted: bool)
    ensures |Acquire(st, micGranted).effects| >= |st.effects|
    ensures Acquire(st, micGranted).effects[..|st.effects|] == st.effects
    ensures Acquire(st, micGranted) == Acquire(st, micGranted).(
      effects := Acquire(st, micGranted).effects, hasOutputContext := true,
      hasStream := Acquire(st, micGranted).hasStream, isConnecting := Acquire(st, micGranted).isConnecting)
    ensures Acquire(st, micGranted).(effects := st.effects, hasOutputContext := st.hasOutputContext,
      hasStream := st.hasStream, isConnecting := st.isConnecting) == st
  {
  }

  lemma ConnectedExtends(st: LiveState, voice: string, muted: bool)
    ensures |Connected(st, voice, muted).effects| >= |st.effects|
    ensures Connected(st, voice, muted).effects[..|st.effects|] == st.effects
    ensures Connected(st, voice, muted).(effects := st.effects, connections := st.connections) == st
  {
  }

  lemma PrefixTransitive(a: seq<Effect>, b: seq<Effect>, c: seq<Effect>)
    requires |b| >= |a| && b[..|a|] == a
    requires |c| >= |b| && c[..|b|] == b
    ensures c[..|a|] == a
  {
    assert c[..|a|] == c[..|b|][..|a|];
  }

  /** Without a usable key the client constructor throws after the teardown: nothing is
      acquired, no connection is requested and the connecting flag is cleared. */
  lemma StartSessionWithoutClient(st: LiveState, voice: string, muted: bool, apiKey: Option<string>, micGranted: bool)
    requires GeminiService.GetClient(apiKey).Err?
    ensures var r := StartSession(st, voice, muted, apiKey, micGranted);
      && r.effects == st.effects + Teardown(st)
      && !r.isConnecting
      && r.connections == st.connections
      && r.hasStream == st.hasStream && r.hasOutputContext == st.hasOutputContext
  {
  }

  /** With a key, after the teardown: the input context is opened, the output context and
      the microphone are acquired only when missing, and the connection is requested with
      the given voice unless the microphone was refused. */
  lemma StartSessionAcquires(st: LiveState, voice: string, muted: bool, apiKey: Option<string>, micGranted: bool)
    requires GeminiService.GetClient(apiKey).Ok?
    ensures StartSession(st, voice, muted, apiKey, micGranted).effects
      == st.effects + Teardown(st) + [OpenInputContext]
         + (if st.hasOutputContext then [] else [OpenOutputContext])
         + (if st.hasStream then [] else [RequestMicrophone])
         + (if st.hasStream || micGranted then [Connect(|st.connections|, voice)] else [])
  {
    var s1 := StopAll(st.(isConnecting := true));
    assert s1.effects == st.effects + StopEffects(st.sources);
    var s2 := if s1.session.Some? then s1.(effects := s1.effects + [CloseSession(s1.session.value)]) else s1;
    assert s2.effects == st.effects + Teardown(st);
    assert s2.hasStream == st.hasStream && s2.hasOutputContext == st.hasOutputContext && s2.connections == st.connections;
  }

  /** With a key, the output context and the microphone are held afterwards (the latter
      unless refused), and the connecting flag stays set and a connection with the given
      voice and mute flag is recorded exactly when the request went out. */
  lemma StartSessionConnects(st: LiveState, voice: string, muted: bool, apiKey: Option<string>, micGranted: bool)
    requires GeminiService.GetClient(apiKey).Ok?
    ensures var r := StartSession(st, voice, muted, apiKey, micGranted);
      var connected := st.hasStream || micGranted;
      && r.hasOutputContext && (r.hasStream <==> connected)
      && (r.isConnecting <==> connected)
      && r.connections == st.connections + (if connected then [Connection(voice, muted)] else [])
  {
  }

  /** Picking a voice reconnects with the voice selected BEFORE the pick (the click
      handler's render still holds it), while the picker shows the new one. */
  lemma PickVoiceUsesPreviousVoice(st: LiveState, v: string, apiKey: Option<string>, micGranted: bool)
    requires GeminiService.GetClient(apiKey).Ok? && (st.hasStream || micGranted)
    ensures var r := PickVoice(st, v, apiKey, micGranted);
      && r.selectedVoice == v
      && !r.showVoicePicker
      && r.connections[|st.connections|] == Connection(st.selectedVoice, st.isMuted)
      && r.effects[|r.effects| - 1] == Connect(|st.connections|, st.selectedVoice)
  {
    var picked := st.(selectedVoice := v, showVoicePicker := false);
    StartSessionAcquires(picked, st.selectedVoice, st.isMuted, apiKey, micGranted);
    StartSessionConnects(picked, st.selectedVoice, st.isMuted, apiKey, micGranted);
  }

  /** Without an API key the client constructor throws: nothing is acquired and no
      connection is requested, but playback was already cleared and the old session closed. */
  lemma StartWithoutKey(st: LiveState, voice: string, muted: bool, micGranted: bool)
    ensures var r := StartSession(st, voice, muted, None, micGranted);
      && !r.isConnecting
      && r.connections == st.connections
      && r.hasStream == st.hasStream && r.hasOutputContext == st.hasOutputContext
      && forall e :: e in r.effects[|st.effects|..] ==> e.StopSource? || e.CloseSession?
  {
    StartSessionWithoutClient(st, voice, muted, None, micGranted);
  }

  // ------------------------------------------------------------ the capture gate

  /** A capture block: a processor whose connection was started muted sends nothing;
      otherwise exactly one `sendRealtimeInput` goes to that connection, tagged
      `audio/pcm;rate=16000`, whose bytes read back as the converted samples. */
  lemma CaptureGate(st: LiveState, p: nat, block: seq<real>)
    requires p < |st.pipelines| && st.pipelines[p] < |st.connections|
    ensures var r := OnAudioProcess(st, p, block);
      var id := st.pipelines[p];
      && (st.connections[id].muted ==> r == st)
      && (!st.connections[id].muted ==>
            && r == st.(effects := r.effects)
            && |r.effects| == |st.effects| + 1
            && r.effects[..|st.effects|] == st.effects
            && var e := r.effects[|st.effects|];
               && e.SendAudio? && e.session == id && e.frame.mimeType == PcmMimeType
               && |BytesOf(e.frame.data)| == 2 * |block|
               && forall i :: 0 <= i < |block| ==> SampleAt(BytesOf(e.frame.data), i) == SampleToInt16(block[i]))
  {
    var id := st.pipelines[p];
    if !st.connections[id].muted {
      var data := BinaryOf(PcmBytes(BlockSamples(block)));
      forall i | 0 <= i < |block| ensures SampleAt(BytesOf(data), i) == SampleToInt16(block[i]) {
        PcmWireRoundTrip(BlockSamples(block), i);
      }
    }
  }

  /** The mute button does not reach a running capture processor: it reads the flag its
      session captured, so toggling mute changes nothing about what is sent. */
  lemma MuteToggleNotSeen(st: LiveState, p: nat, block: seq<real>)
    requires p < |st.pipelines| && st.pipelines[p] < |st.connections|
    ensures OnAudioProcess(ToggleMute(st), p, block).effects == OnAudioProcess(st, p, block).effects
  {
  }

  // ------------------------------------------------------------ well-formedness of every step

  /** Every callback keeps the state well formed: the cursor is never negative, the
      tracking set holds distinct ids that were all handed out, and every session, every
      capture processor and every voice refers to something that exists. */
  lemma StopAllKeepsValid(st: LiveState)
    requires Valid(st)
    ensures Valid(StopAll(st))
  {
    assert Distinct([]);
  }

  lemma OnEndedKeepsValid(st: LiveState, id: SourceId)
    requires Valid(st)
    ensures Valid(OnEnded(st, id))
  {
    RemoveKeepsDistinct(st.sources, id);
    var r := Remove(st.sources, id);
    forall i | 0 <= i < |r| ensures r[i] < st.nextSource {
      assert r[i] in st.sources;
    }
  }

  lemma ScheduleKeepsValid(st: LiveState, binary: Option<string>, now: real)
    requires Valid(st) && now >= 0.0
    ensures Valid(ScheduleAudio(st, binary, now).state)
  {
    var r := ScheduleAudio(st, binary, now).state;
    if r.sources != st.sources {
      assert r.sources == st.sources + [st.nextSource];
      assert forall i :: 0 <= i < |st.sources| ==> st.sources[i] < st.nextSource;
      forall i, j | 0 <= i < j < |r.sources| ensures r.sources[i] != r.sources[j] {
        assert r.sources[i] == st.sources[i];
      }
    }
  }

  lemma OnMessageKeepsValid(st: LiveState, msg: ServerMessage, binary: Option<string>, now: real)
    requires Valid(st) && now >= 0.0
    ensures Valid(OnMessage(st, msg, binary, now))
  {
    ScheduleKeepsValid(st, binary, now);
    StopAllKeepsValid(st);
    StopAllKeepsValid(ScheduleAudio(st, binary, now).state);
  }

  lemma StartSessionKeepsValid(st: LiveState, voice: string, muted: bool, apiKey: Option<string>, micGranted: bool)
    requires Valid(st) && IsVoice(voice)
    ensures Valid(StartSession(st, voice, muted, apiKey, micGranted))
  {
    var r := StartSession(st, voice, muted, apiKey, micGranted);
    StartSessionTearsDown(st, voice, muted, apiKey, micGranted);
    if GeminiService.GetClient(apiKey).Err? {
      StartSessionWithoutClient(st, voice, muted, apiKey, micGranted);
    } else {
      StartSessionConnects(st, voice, muted, apiKey, micGranted);
    }
    assert r.selectedVoice == st.selectedVoice;
    assert Distinct(r.sources);
    forall i | 0 <= i < |r.connections| ensures IsVoice(r.connections[i].voice) {
      if i < |st.connections| {
        assert r.connections[i] == st.connections[i];
      }
    }
  }

  lemma OnOpenKeepsValid(st: LiveState, id: SessionId)
    requires Valid(st) && id < |st.connections|
    ensures Valid(OnOpen(st, id))
  {
  }

  lemma PickVoiceKeepsValid(st: LiveState, v: string, apiKey: Option<string>, micGranted: bool)
    requires Valid(st) && IsVoice(v)
    ensures Valid(PickVoice(st, v, apiKey, micGranted))
  {
    StartSessionKeepsValid(st.(selectedVoice := v, showVoicePicker := false), st.selectedVoice, st.isMuted, apiKey, micGranted);
  }
}

/** hooks/useLiveSession.ts: the live-session hook as an object. The hook's React
    state and refs are its fields; the GenAI session's callbacks, the script
    processor's frames, the recorder's events and the user's controls are its
    methods. Clocks and `Math.random` arrive as parameters; what is sent to the
    remote session is recorded in `sent` and `toolResponses`. */
module LiveSession {
  import opened Wrappers
  import opened Text
  import opened Types
  import opened Base64
  import opened AudioUtils
  import opened SessionRules
  import Ambience

  datatype RecorderState = Recording | Inactive

  /** The name a function call carries: the one declared tool, or any other name. */
  datatype ToolName = LogTacticalInsight | OtherTool(name: string)

  /** A function call from the model; only `logTacticalInsight` calls are acted on. */
  datatype FunctionCall = FunctionCall(id: string, name: ToolName, text: string, kind: InsightKind, mood: Option<BossMood>)

  /** A `LiveServerMessage`: tool calls, the first part's inline audio, the two
      transcription fragments and the turn-complete flag. */
  datatype Message = Message(
    toolCalls: seq<FunctionCall>,
    audio: Option<string>,
    outputText: Option<string>,
    inputText: Option<string>,
    turnComplete: bool)

  /** The `Date.now()` and `Math.random()` one `updateTranscript` call draws. */
  datatype Stamp = Stamp(now: int, nonce: real)

  /** The readings one message's handler draws: the time its insights are logged
      at, and a stamp for each transcript update it may make, in the order made. */
  datatype Stamps = Stamps(insightTime: int, aiPartial: Stamp, userPartial: Stamp, aiFinal: Stamp, userFinal: Stamp)

  /** What the remote session delivers to the callbacks `connect` registers. */
  datatype Event =
    | Open(currentTime: real, random: seq<real>)
    | Incoming(message: Message, currentTime: real, stamps: Stamps)
    | Closed
    | Failed

  /** The ambience `connect` plays when its caller gives none. */
  const DefaultAmbience: Preset := Office

  /** The 24 kHz output context `ensureAudioContexts` creates. */
  const OutputContext: Ambience.Context := Ambience.Context(0, OutputSampleRate)

  /** The audio carried by a message can be played: it is valid base64 of a
      whole number of 16-bit samples, at least one. */
  predicate Playable(base64: string) {
    Atob(base64).Ok? && |Atob(base64).value| % 2 == 0 && |Atob(base64).value| >= 2
  }

  /** Its duration in seconds: one mono sample per two bytes at 24 kHz. */
  function ChunkDuration(base64: string): real
    requires Playable(base64)
  {
    (|Atob(base64).value| / 2) as real / OutputSampleRate as real
  }

  /** `base64ToUint8Array` then `pcmToAudioBuffer` at 24 kHz mono: the buffer's duration,
      or nothing where either throws. */
  method DecodeChunk(base64: string) returns (duration: Option<real>)
    ensures duration.Some? <==> Playable(base64)
    ensures duration.Some? ==> duration.value == ChunkDuration(base64)
  {
    var bytes := Base64ToUint8Array(base64);
    if bytes.Err? {
      return None;
    }
    assert |bytes.value[..]| == |Atob(base64).value|;
    var buffer := PcmToAudioBuffer(bytes.value, OutputSampleRate, 1);
    if buffer.Err? {
      return None;
    }
    return Some(buffer.value.Duration());
  }

  class Session {
    var connectionState: ConnectionState
    var transcript: seq<TranscriptItem>
    var markers: seq<int>
    var insights: seq<TacticalInsight>
    var bossMood: BossMood
    /** The per-role fragment accumulators. */
    var outputTrans: string
    var inputTrans: string
    /** The playback cursor, in output-clock seconds. */
    var nextStartTime: real
    /** The scheduled playback sources, by id; `nextSourceId` numbers the next one. */
    var scheduled: set<nat>
    var nextSourceId: nat
    var isMuted: bool
    var inputMode: InputMode
    var pttPressed: bool
    var inputThreshold: real
    /** The mute flag the running frame handler captured when `connect` was created. */
    var gateMuted: bool
    /** A script processor is wired to the microphone and delivers frames. */
    var processorWired: bool
    var ambiencePreset: Preset
    var outputCtx: Option<Ambience.Context>
    var recorder: Option<RecorderState>
    /** Sizes of the recorded chunks kept so far. */
    var chunks: seq<nat>
    /** The recording handed out by `onstop`, as the chunks it was made from. */
    var audioUrl: Option<seq<nat>>
    var startTime: int
    var availableInputs: seq<Device>
    var availableOutputs: seq<Device>
    /** Payloads passed to `sendRealtimeInput`, in order. */
    var sent: seq<string>
    /** Ids of the tool calls answered with `sendToolResponse`, in order. */
    var toolResponses: seq<string>
    const ambience: Ambience.AmbienceGenerator

    ghost predicate Valid()
      reads this`outputCtx, this`insights, this`scheduled, this`nextSourceId, ambience
    {
      && ambience.Valid()
      && (ambience.ctx.Some? ==> ambience.ctx.value == OutputContext)
      && (outputCtx.Some? ==> outputCtx.value == OutputContext)
      && |insights| <= 4
      && (forall id :: id in scheduled ==> id < nextSourceId)
    }

    constructor ()
      ensures Valid()
      ensures connectionState == Disconnected && transcript == [] && markers == [] && insights == []
      ensures bossMood == MoodNeutral && outputTrans == [] && inputTrans == [] && scheduled == {}
      ensures !isMuted && inputMode == VAD && !pttPressed && inputThreshold == 0.0
      ensures !processorWired && recorder == None && audioUrl == None && sent == [] && toolResponses == []
      ensures nextStartTime == 0.0 && nextSourceId == 0 && chunks == [] && startTime == 0 && !gateMuted
      ensures availableInputs == [] && availableOutputs == [] && outputCtx == None && ambiencePreset == DefaultAmbience
      ensures fresh(ambience) && ambience.ctx == None && ambience.masterGain == None && ambience.nodes == [] && ambience.playing == {}
    {
      connectionState, transcript, markers, insights, bossMood := Disconnected, [], [], [], MoodNeutral;
      outputTrans, inputTrans, nextStartTime, scheduled, nextSourceId := [], [], 0.0, {}, 0;
      isMuted, inputMode, pttPressed, inputThreshold := false, VAD, false, 0.0;
      gateMuted, processorWired, ambiencePreset, outputCtx := false, false, DefaultAmbience, None;
      recorder, chunks, audioUrl, startTime := None, [], None, 0;
      availableInputs, availableOutputs, sent, toolResponses := [], [], [], [];
      ambience := new Ambience.AmbienceGenerator();
    }

    /** `isAiSpeaking`, as the animation-frame poll reads it. */
    predicate AiSpeaking()
      reads this
    {
      scheduled != {}
    }

    method ToggleMute()
      modifies this`isMuted
      ensures isMuted == !old(isMuted) && gateMuted == old(gateMuted) && sent == old(sent)
    {
      isMuted := !isMuted;
    }

    method AddMarker(now: int)
      modifies this`markers
      ensures markers == old(markers) + [now]
    {
      markers := markers + [now];
    }

    method SetInputThreshold(threshold: real)
      modifies this`inputThreshold
      ensures inputThreshold == threshold
    {
      inputThreshold := threshold;
    }

    method SetInputMode(mode: InputMode)
      modifies this`inputMode
      ensures inputMode == mode
    {
      inputMode := mode;
    }

    method SetPttPressed(pressed: bool)
      modifies this`pttPressed
      ensures pttPressed == pressed
    {
      pttPressed := pressed;
    }

    /** `loadDevices`: `devices` is the enumeration's result, `None` when it failed. */
    method LoadDevices(devices: Option<seq<Device>>)
      modifies this`availableInputs, this`availableOutputs
      ensures devices.None? ==> availableInputs == old(availableInputs) && availableOutputs == old(availableOutputs)
      ensures devices.Some? ==>
        availableInputs == OfKind(devices.value, AudioInput) && availableOutputs == OfKind(devices.value, AudioOutput)
    {
      if devices.Some? {
        availableInputs := OfKind(devices.value, AudioInput);
        availableOutputs := OfKind(devices.value, AudioOutput);
      }
    }

    /** The part of `connect` before the microphone is asked for: the session's
        state is cleared, the output context exists and the ambience has its master gain. */
    method PrepareConnect()
      requires Valid()
      modifies this`connectionState, this`transcript, this`markers, this`insights, this`bossMood, this`outputCtx, ambience
      ensures Valid()
      ensures connectionState == Connecting
      ensures transcript == [] && markers == [] && insights == [] && bossMood == MoodNeutral
      ensures outputCtx == Some(OutputContext) && ambience.ctx == Some(OutputContext)
      ensures ambience.masterGain == Some(Ambience.Node(old(ambience.nextId), Ambience.GainNode(1.0)))
      ensures ambience.nodes == old(ambience.nodes) + [ambience.masterGain.value] && ambience.playing == old(ambience.playing)
    {
      connectionState := Connecting;
      transcript, markers, insights, bossMood := [], [], [], MoodNeutral;
      if outputCtx.None? {
        outputCtx := Some(OutputContext);
      }
      ambience.Init(outputCtx.value);
    }

    /** `connect`. `preset` is the ambience argument, `None` when the caller leaves it out;
        `micGranted` is the outcome of `getUserMedia`; `now` is `Date.now()`. */
    method Connect(preset: Option<Preset>, micGranted: bool, now: int)
      requires Valid()
      modifies this`connectionState, this`transcript, this`markers, this`insights, this`bossMood, this`outputCtx, ambience
      modifies this`recorder, this`startTime, this`ambiencePreset, this`gateMuted, this`processorWired
      ensures Valid()
      ensures transcript == [] && markers == [] && insights == [] && bossMood == MoodNeutral
      ensures outputCtx == Some(OutputContext) && ambience.ctx == Some(OutputContext)
      ensures ambience.masterGain == Some(Ambience.Node(old(ambience.nextId), Ambience.GainNode(1.0)))
      ensures ambience.nodes == old(ambience.nodes) + [ambience.masterGain.value] && ambience.playing == old(ambience.playing)
      ensures !micGranted ==> (connectionState == Error && recorder == old(recorder) && processorWired == old(processorWired)
        && gateMuted == old(gateMuted) && startTime == old(startTime) && ambiencePreset == old(ambiencePreset))
      ensures micGranted ==> (connectionState == Connecting && recorder == Some(Recording) && startTime == now
        && processorWired && gateMuted == isMuted && ambiencePreset == preset.GetOr(DefaultAmbience))
    {
      PrepareConnect();
      if micGranted {
        recorder, startTime, ambiencePreset := Some(Recording), now, preset.GetOr(DefaultAmbience);
        gateMuted, processorWired := isMuted, true;
      } else {
        connectionState := Error;
      }
    }

    /** `onopen`: connected, the cursor moves to the output clock and the ambience starts.
        `random` supplies the noise samples. */
    method OnOpen(currentTime: real, random: seq<real>)
      requires Valid()
      requires |random| >= 2 * OutputSampleRate
      requires forall i :: 0 <= i < |random| ==> 0.0 <= random[i] < 1.0
      modifies this`connectionState, this`nextStartTime, ambience
      ensures Valid()
      ensures connectionState == Connected && nextStartTime == currentTime
      ensures transcript == old(transcript) && scheduled == old(scheduled) && sent == old(sent)
      ensures old(ambience.ctx).Some? && old(ambience.masterGain).Some? ==>
        var built := Ambience.PresetNodes(ambiencePreset, old(ambience.nextId), Ambience.NoiseOf(random, OutputSampleRate));
        && ambience.masterGain == old(ambience.masterGain) && ambience.nodes == [old(ambience.masterGain).value] + built
        && ambience.playing == Ambience.SourceIds(built)
        && |ambience.nodes| == 1 + (if ambiencePreset == Intense then 5 else 3) && ambience.playing != {}
      ensures old(ambience.ctx).None? || old(ambience.masterGain).None? ==> ambience.nodes == old(ambience.nodes)
    {
      connectionState := Connected;
      nextStartTime := currentTime;
      ambience.Start(ambiencePreset, random);
    }

    method OnClose()
      requires Valid()
      modifies this`connectionState
      ensures Valid()
      ensures connectionState == Disconnected
      ensures processorWired == old(processorWired) && recorder == old(recorder) && scheduled == old(scheduled)
      ensures transcript == old(transcript) && sent == old(sent) && nextStartTime == old(nextStartTime)
    {
      connectionState := Disconnected;
    }

    method OnError()
      requires Valid()
      modifies this`connectionState
      ensures Valid()
      ensures connectionState == Error
      ensures processorWired == old(processorWired) && recorder == old(recorder) && scheduled == old(scheduled)
      ensures transcript == old(transcript) && sent == old(sent) && nextStartTime == old(nextStartTime)
    {
      connectionState := Error;
    }

    /** The tool-call loop: each `logTacticalInsight` updates the mood when one is
        given, rolls the insight list and is answered. `now` stamps the insights. */
    method HandleToolCalls(calls: seq<FunctionCall>, now: int)
      requires Valid()
      modifies this`insights, this`toolResponses, this`bossMood
      ensures Valid()
      ensures toolResponses == old(toolResponses) + AnsweredIds(calls)
      ensures insights == InsightsAfter(calls, now, old(insights))
      ensures LastInsight(calls, now).Some? ==> |insights| > 0 && insights[|insights| - 1] == LastInsight(calls, now).value
      ensures LastInsight(calls, now).None? ==> insights == old(insights)
      ensures bossMood == MoodAfter(calls, old(bossMood))
    {
      insights, toolResponses, bossMood := RunToolCalls(calls, now, insights, toolResponses, bossMood);
    }

    /** The audio branch: decode, build the buffer, schedule it at the cursor.
        Returns false where the source throws (bad base64, odd or empty PCM). */
    method HandleAudio(base64: string, currentTime: real) returns (played: bool)
      requires Valid()
      modifies this`nextStartTime, this`scheduled, this`nextSourceId
      ensures Valid()
      ensures played <==> Playable(base64)
      ensures played ==> (nextStartTime == StartTime(old(nextStartTime), currentTime) + ChunkDuration(base64)
        && scheduled == old(scheduled) + {old(nextSourceId)} && old(nextSourceId) !in old(scheduled) && AiSpeaking())
      ensures !played ==> nextStartTime == old(nextStartTime) && scheduled == old(scheduled)
    {
      var duration := DecodeChunk(base64);
      if duration.None? {
        return false;
      }
      var source := nextSourceId;
      nextSourceId := nextSourceId + 1;
      if nextStartTime < currentTime {
        nextStartTime := currentTime;
      }
      nextStartTime := nextStartTime + duration.value;
      scheduled := scheduled + {source};
      played := true;
    }

    /** Routes a remote event to its callback. */
    method Receive(e: Event)
      requires Valid()
      requires e.Open? ==> |e.random| >= 2 * OutputSampleRate && forall i :: 0 <= i < |e.random| ==> 0.0 <= e.random[i] < 1.0
      modifies this`connectionState, this`nextStartTime, ambience
      modifies this`insights, this`toolResponses, this`bossMood, this`scheduled, this`nextSourceId
      modifies this`transcript, this`outputTrans, this`inputTrans
      ensures Valid()
      ensures connectionState == match e
        case Open(_, _) => Connected
        case Incoming(_, _, _) => old(connectionState)
        case Closed => Disconnected
        case Failed => Error
      ensures !e.Open? ==> unchanged(ambience)
      ensures e.Open? ==>
        && nextStartTime == e.currentTime
        && (old(ambience.ctx).Some? && old(ambience.masterGain).Some? ==>
              var built := Ambience.PresetNodes(ambiencePreset, old(ambience.nextId), Ambience.NoiseOf(e.random, OutputSampleRate));
              && ambience.masterGain == old(ambience.masterGain) && ambience.nodes == [old(ambience.masterGain).value] + built
              && ambience.playing == Ambience.SourceIds(built) && ambience.playing != {})
        && (old(ambience.ctx).None? || old(ambience.masterGain).None? ==> ambience.nodes == old(ambience.nodes))
      ensures e.Closed? || e.Failed? ==> nextStartTime == old(nextStartTime)
      ensures !e.Incoming? ==> (Talk() == old(Talk()) && scheduled == old(scheduled) && insights == old(insights)
        && toolResponses == old(toolResponses) && bossMood == old(bossMood))
      ensures e.Incoming? ==> var m, st := e.message, e.stamps;
        && toolResponses == old(toolResponses) + AnsweredIds(m.toolCalls)
        && insights == InsightsAfter(m.toolCalls, st.insightTime, old(insights))
        && bossMood == MoodAfter(m.toolCalls, old(bossMood))
        && (HasAudio(m) && Playable(m.audio.value) ==>
              nextStartTime == StartTime(old(nextStartTime), e.currentTime) + ChunkDuration(m.audio.value)
              && scheduled == old(scheduled) + {old(nextSourceId)})
        && (!(HasAudio(m) && Playable(m.audio.value)) ==> nextStartTime == old(nextStartTime) && scheduled == old(scheduled))
        && (!HasAudio(m) || Playable(m.audio.value) ==> Talk() == AfterMessage(old(Talk()), m, st))
        && (HasAudio(m) && !Playable(m.audio.value) ==> Talk() == old(Talk()))
    {
      match e
      case Open(currentTime, random) => OnOpen(currentTime, random);
      case Incoming(m, currentTime, stamps) => { var _ := OnMessage(m, currentTime, stamps); }
      case Closed => OnClose();
      case Failed => OnError();
    }

    /** A source's `onended`. */
    method OnSourceEnded(source: nat)
      requires Valid()
      modifies this`scheduled
      ensures Valid()
      ensures scheduled == old(scheduled) - {source}
      ensures nextStartTime == old(nextStartTime)
    {
      scheduled := scheduled - {source};
    }

    /** A transcription fragment for `role`: appended to its accumulator, and the
        whole accumulator written to the transcript as partial. An empty fragment is ignored. */
    method HandleFragment(role: Role, fragment: string, now: int, nonce: real)
      requires Valid()
      modifies this`transcript, this`outputTrans, this`inputTrans
      ensures Valid()
      ensures fragment == [] ==> transcript == old(transcript) && inputTrans == old(inputTrans) && outputTrans == old(outputTrans)
      ensures fragment != [] && role == Ai ==> (outputTrans == old(outputTrans) + fragment && inputTrans == old(inputTrans)
        && transcript == UpdateTranscript(old(transcript), Ai, outputTrans, false, now, nonce))
      ensures fragment != [] && role == User ==> (inputTrans == old(inputTrans) + fragment && outputTrans == old(outputTrans)
        && transcript == UpdateTranscript(old(transcript), User, inputTrans, false, now, nonce))
    {
      if fragment == [] {
        return;
      }
      if role == Ai {
        outputTrans := outputTrans + fragment;
        transcript := UpdateTranscript(transcript, Ai, outputTrans, false, now, nonce);
      } else {
        inputTrans := inputTrans + fragment;
        transcript := UpdateTranscript(transcript, User, inputTrans, false, now, nonce);
      }
    }

    /** `turnComplete`: each non-empty accumulator is written as final and cleared, the AI's first. */
    method HandleTurnComplete(ai: Stamp, user: Stamp)
      requires Valid()
      modifies this`transcript, this`outputTrans, this`inputTrans
      ensures Valid()
      ensures outputTrans == [] && inputTrans == []
      ensures var afterAi := if old(outputTrans) != [] then UpdateTranscript(old(transcript), Ai, old(outputTrans), true, ai.now, ai.nonce)
                             else old(transcript);
        transcript == if old(inputTrans) != [] then UpdateTranscript(afterAi, User, old(inputTrans), true, user.now, user.nonce) else afterAi
    {
      var items := transcript;
      if outputTrans != [] {
        items := UpdateTranscript(items, Ai, outputTrans, true, ai.now, ai.nonce);
      }
      if inputTrans != [] {
        items := UpdateTranscript(items, User, inputTrans, true, user.now, user.nonce);
      }
      transcript, outputTrans, inputTrans := items, [], [];
    }

    /** The transcript with the two accumulators. */
    function Talk(): Dialogue
      reads this`transcript, this`outputTrans, this`inputTrans
    {
      Dialogue(transcript, outputTrans, inputTrans)
    }

    /** `onmessage`: tool calls, then audio, then the output and input fragments, then
        turn completion. A chunk that cannot be decoded throws and ends the handler there,
        after the tool calls. */
    method OnMessage(m: Message, currentTime: real, stamps: Stamps) returns (completed: bool)
      requires Valid()
      modifies this`insights, this`toolResponses, this`bossMood, this`nextStartTime, this`scheduled, this`nextSourceId
      modifies this`transcript, this`outputTrans, this`inputTrans
      ensures Valid()
      ensures completed <==> !HasAudio(m) || Playable(m.audio.value)
      ensures toolResponses == old(toolResponses) + AnsweredIds(m.toolCalls)
      ensures insights == InsightsAfter(m.toolCalls, stamps.insightTime, old(insights))
      ensures LastInsight(m.toolCalls, stamps.insightTime).Some? ==>
        |insights| > 0 && insights[|insights| - 1] == LastInsight(m.toolCalls, stamps.insightTime).value
      ensures LastInsight(m.toolCalls, stamps.insightTime).None? ==> insights == old(insights)
      ensures bossMood == MoodAfter(m.toolCalls, old(bossMood))
      ensures HasAudio(m) && Playable(m.audio.value) ==>
        && nextStartTime == StartTime(old(nextStartTime), currentTime) + ChunkDuration(m.audio.value)
        && scheduled == old(scheduled) + {old(nextSourceId)}
      ensures !(HasAudio(m) && Playable(m.audio.value)) ==> nextStartTime == old(nextStartTime) && scheduled == old(scheduled)
      ensures completed ==> Talk() == AfterMessage(old(Talk()), m, stamps)
      ensures !completed ==> Talk() == old(Talk())
    {
      HandleToolCalls(m.toolCalls, stamps.insightTime);
      completed := HandleContent(m, currentTime, stamps);
    }

    /** The part of `onmessage` after the tool calls: the audio, then the transcription
        unless the audio throws. */
    method HandleContent(m: Message, currentTime: real, stamps: Stamps) returns (completed: bool)
      requires Valid()
      modifies this`nextStartTime, this`scheduled, this`nextSourceId, this`transcript, this`outputTrans, this`inputTrans
      ensures Valid()
      ensures completed <==> !HasAudio(m) || Playable(m.audio.value)
      ensures HasAudio(m) && Playable(m.audio.value) ==>
        && nextStartTime == StartTime(old(nextStartTime), currentTime) + ChunkDuration(m.audio.value)
        && scheduled == old(scheduled) + {old(nextSourceId)}
      ensures !(HasAudio(m) && Playable(m.audio.value)) ==> nextStartTime == old(nextStartTime) && scheduled == old(scheduled)
      ensures completed ==> Talk() == AfterMessage(old(Talk()), m, stamps)
      ensures !completed ==> Talk() == old(Talk())
    {
      completed := true;
      if HasAudio(m) {
        completed := HandleAudio(m.audio.value, currentTime);
      }
      if completed {
        HandleTranscription(m, stamps);
      }
    }

    /** The transcription part of `onmessage`: the output fragment, the input fragment, then turn completion. */
    method HandleTranscription(m: Message, stamps: Stamps)
      requires Valid()
      modifies this`transcript, this`outputTrans, this`inputTrans
      ensures Valid()
      ensures Talk() == AfterMessage(old(Talk()), m, stamps)
    {
      ghost var start := Talk();
      if m.outputText.Some? {
        HandleFragment(Ai, m.outputText.value, stamps.aiPartial.now, stamps.aiPartial.nonce);
      }
      ghost var afterAi := Talk();
      assert afterAi == AfterFragment(start, Ai, m.outputText, stamps.aiPartial);
      if m.inputText.Some? {
        HandleFragment(User, m.inputText.value, stamps.userPartial.now, stamps.userPartial.nonce);
      }
      assert Talk() == AfterFragment(afterAi, User, m.inputText, stamps.userPartial);
      if m.turnComplete {
        HandleTurnComplete(stamps.aiFinal, stamps.userFinal);
      }
    }

    /** `onaudioprocess` for one microphone frame. */
    method OnAudioProcess(frame: array<real>)
      requires Valid()
      modifies this`sent
      ensures Valid()
      ensures processorWired && ShouldSend(gateMuted, inputMode, pttPressed, frame[..], inputThreshold) ==>
        sent == old(sent) + [FramePayload(frame[..])]
      ensures !(processorWired && ShouldSend(gateMuted, inputMode, pttPressed, frame[..], inputThreshold)) ==>
        sent == old(sent)
      ensures transcript == old(transcript) && scheduled == old(scheduled) && connectionState == old(connectionState)
    {
      if !processorWired || gateMuted {
        return;
      }
      if inputMode == PTT && !pttPressed {
        return;
      }
      if inputMode == VAD {
        var sum := SumOfSquares(frame);
        if frame.Length > 0 && inputThreshold > 0.0 && sum / frame.Length as real < inputThreshold * inputThreshold {
          return;
        }
      }
      var payload := EncodeFrame(frame);
      sent := sent + [payload];
    }

    /** `ondataavailable`: non-empty chunks are kept. */
    method OnRecorderData(size: nat)
      modifies this`chunks
      ensures size > 0 ==> chunks == old(chunks) + [size]
      ensures size == 0 ==> chunks == old(chunks)
      ensures recorder == old(recorder) && audioUrl == old(audioUrl)
    {
      if size > 0 {
        chunks := chunks + [size];
      }
    }

    /** `disconnect`. The recorder's `onstop` is taken to follow at once: it turns
        the kept chunks, even none, into the recording and clears them. */
    method Disconnect()
      requires Valid()
      modifies this`connectionState, this`processorWired, this`recorder, this`audioUrl, this`chunks, ambience
      ensures Valid()
      ensures connectionState == Disconnected && !processorWired
      ensures old(recorder) == Some(Recording) ==> recorder == Some(Inactive) && audioUrl == Some(old(chunks)) && chunks == []
      ensures old(recorder) != Some(Recording) ==> recorder == old(recorder) && audioUrl == old(audioUrl) && chunks == old(chunks)
      ensures scheduled == old(scheduled) && nextStartTime == old(nextStartTime)
      ensures ambience.ctx == None && ambience.masterGain == None && ambience.playing == {}
      ensures transcript == old(transcript) && sent == old(sent)
    {
      ambience.Stop();
      if recorder == Some(Recording) {
        recorder := Some(Inactive);
        audioUrl := Some(chunks);
        chunks := [];
      }
      processorWired := false;
      connectionState := Disconnected;
    }
  }

  /** The message carries audio: a non-empty base64 string in its first part. */
  predicate HasAudio(m: Message) {
    m.audio.Some? && m.audio.value != []
  }

  /** The transcript and the two fragment accumulators. */
  datatype Dialogue = Dialogue(items: seq<TranscriptItem>, outputTrans: string, inputTrans: string)

  /** A transcription fragment for `role`, as `onmessage` applies it: a missing or
      empty one is ignored; otherwise it extends the accumulator, which is written as partial. */
  function AfterFragment(d: Dialogue, role: Role, fragment: Option<string>, st: Stamp): Dialogue {
    if fragment.None? || fragment.value == [] then d
    else if role == Ai then
      var acc := d.outputTrans + fragment.value;
      Dialogue(UpdateTranscript(d.items, Ai, acc, false, st.now, st.nonce), acc, d.inputTrans)
    else
      var acc := d.inputTrans + fragment.value;
      Dialogue(UpdateTranscript(d.items, User, acc, false, st.now, st.nonce), d.outputTrans, acc)
  }

  /** `turnComplete`: the non-empty accumulators are written as final, the AI's first, and cleared. */
  function AfterTurn(d: Dialogue, ai: Stamp, user: Stamp): Dialogue {
    var afterAi := if d.outputTrans != [] then UpdateTranscript(d.items, Ai, d.outputTrans, true, ai.now, ai.nonce) else d.items;
    var afterUser := if d.inputTrans != [] then UpdateTranscript(afterAi, User, d.inputTrans, true, user.now, user.nonce) else afterAi;
    Dialogue(afterUser, [], [])
  }

  /** The transcript and accumulators after a message that runs to completion. */
  function AfterMessage(d: Dialogue, m: Message, st: Stamps): (r: Dialogue)
    ensures m.turnComplete ==> r.outputTrans == [] && r.inputTrans == []
    ensures !m.turnComplete ==>
      r.outputTrans == d.outputTrans + m.outputText.GetOr([]) && r.inputTrans == d.inputTrans + m.inputText.GetOr([])
  {
    var fragments := AfterFragment(AfterFragment(d, Ai, m.outputText, st.aiPartial), User, m.inputText, st.userPartial);
    if m.turnComplete then AfterTurn(fragments, st.aiFinal, st.userFinal) else fragments
  }

  /** One message rewrites at most the trailing item of the transcript and adds at most
      four: one per fragment and one per accumulator finalised. */
  lemma AfterMessageKeepsHistory(d: Dialogue, m: Message, st: Stamps)
    ensures var r := AfterMessage(d, m, st);
      KeepsHistory(d.items, r.items) && |r.items| <= |d.items| + 4
  {
    var a := AfterFragment(d, Ai, m.outputText, st.aiPartial);
    var b := AfterFragment(a, User, m.inputText, st.userPartial);
    AfterFragmentKeepsHistory(d, Ai, m.outputText, st.aiPartial);
    AfterFragmentKeepsHistory(a, User, m.inputText, st.userPartial);
    KeepsHistoryTransitive(d.items, a.items, b.items);
    if m.turnComplete {
      var c := AfterTurn(b, st.aiFinal, st.userFinal);
      AfterTurnKeepsHistory(b, st.aiFinal, st.userFinal);
      KeepsHistoryTransitive(d.items, b.items, c.items);
    }
  }

  lemma AfterFragmentKeepsHistory(d: Dialogue, role: Role, fragment: Option<string>, st: Stamp)
    ensures var r := AfterFragment(d, role, fragment, st);
      KeepsHistory(d.items, r.items) && |r.items| <= |d.items| + 1
  {
    if fragment.Some? && fragment.value != [] {
      var acc := (if role == Ai then d.outputTrans else d.inputTrans) + fragment.value;
      UpdateKeepsHistory(d.items, role, acc, false, st.now, st.nonce);
    }
  }

  lemma AfterTurnKeepsHistory(d: Dialogue, ai: Stamp, user: Stamp)
    ensures var r := AfterTurn(d, ai, user);
      KeepsHistory(d.items, r.items) && |r.items| <= |d.items| + 2
  {
    var afterAi := if d.outputTrans != [] then UpdateTranscript(d.items, Ai, d.outputTrans, true, ai.now, ai.nonce) else d.items;
    UpdateKeepsHistory(d.items, Ai, d.outputTrans, true, ai.now, ai.nonce);
    UpdateKeepsHistory(afterAi, User, d.inputTrans, true, user.now, user.nonce);
    if d.inputTrans != [] {
      KeepsHistoryTransitive(d.items, afterAi, UpdateTranscript(afterAi, User, d.inputTrans, true, user.now, user.nonce));
    }
  }

  /**
   * Partials of both roles in one turn are never closed: the turn's final updates find
   * the other role's item last, so each line is appended again as a new final item,
   * with its own id, and the two partial items stay in the transcript as they were.
   */
  lemma InterleavedPartialsStayPartial(st: Stamps, aiLine: string, userLine: string)
    requires !Text.Blank(aiLine) && !Text.Blank(userLine)
    requires st.aiPartial != st.aiFinal && st.userPartial != st.userFinal
    ensures var r := AfterMessage(Dialogue([], [], []), Message([], None, Some(aiLine), Some(userLine), true), st).items;
      && |r| == 4
      && r[0].role == Ai && r[0].isPartial && r[2].role == Ai && !r[2].isPartial
      && r[1].role == User && r[1].isPartial && r[3].role == User && !r[3].isPartial
      && r[0].text == r[2].text == aiLine && r[1].text == r[3].text == userLine
      && r[0].id != r[2].id && r[1].id != r[3].id
  {
    var m := Message([], None, Some(aiLine), Some(userLine), true);
    var a := AfterFragment(Dialogue([], [], []), Ai, m.outputText, st.aiPartial);
    FirstFragmentAppends(Dialogue([], [], []), Ai, aiLine, st.aiPartial);
    var b := AfterFragment(a, User, m.inputText, st.userPartial);
    FirstFragmentAppends(a, User, userLine, st.userPartial);
    TurnAppendsBoth(b, st.aiFinal, st.userFinal);
  }

  /** A role's first fragment of a turn, when the other role spoke last, opens a new partial item. */
  lemma FirstFragmentAppends(d: Dialogue, role: Role, fragment: string, st: Stamp)
    requires !Text.Blank(fragment) && (if role == Ai then d.outputTrans else d.inputTrans) == []
    requires |d.items| == 0 || d.items[|d.items| - 1].role != role
    ensures AfterFragment(d, role, Some(fragment), st) == Dialogue(d.items + [NewItem(role, fragment, false, st)],
      if role == Ai then fragment else d.outputTrans, if role == User then fragment else d.inputTrans)
  {
    assert fragment != [];
    AppendsNewItem(d.items, role, fragment, false, st);
    if role == Ai {
      assert d.outputTrans + fragment == fragment;
    } else {
      assert d.inputTrans + fragment == fragment;
    }
  }

  /** Turn completion after a user item: both accumulators are appended as new final items. */
  lemma TurnAppendsBoth(d: Dialogue, ai: Stamp, user: Stamp)
    requires !Text.Blank(d.outputTrans) && !Text.Blank(d.inputTrans)
    requires |d.items| > 0 && d.items[|d.items| - 1].role == User
    ensures AfterTurn(d, ai, user).items == d.items + [NewItem(Ai, d.outputTrans, true, ai), NewItem(User, d.inputTrans, true, user)]
  {
    AppendsNewItem(d.items, Ai, d.outputTrans, true, ai);
    var afterAi := d.items + [NewItem(Ai, d.outputTrans, true, ai)];
    AppendsNewItem(afterAi, User, d.inputTrans, true, user);
  }

  /** The item an update appends. */
  function NewItem(role: Role, text: string, isFinal: bool, st: Stamp): TranscriptItem {
    TranscriptItem(ItemId(role, st.now, st.nonce), role, text, !isFinal, st.now)
  }

  lemma AppendsNewItem(prev: seq<TranscriptItem>, role: Role, text: string, isFinal: bool, st: Stamp)
    requires !Text.Blank(text) && (|prev| == 0 || prev[|prev| - 1].role != role)
    ensures UpdateTranscript(prev, role, text, isFinal, st.now, st.nonce) == prev + [NewItem(role, text, isFinal, st)]
  {
  }

  /** The ids of the calls that get a response, in call order. */
  function AnsweredIds(calls: seq<FunctionCall>): seq<string>
  {
    if calls == [] then []
    else
      var last := calls[|calls| - 1];
      AnsweredIds(calls[..|calls| - 1]) + (if last.name == LogTacticalInsight then [last.id] else [])
  }

  lemma AnsweredIdsSnoc(calls: seq<FunctionCall>, fc: FunctionCall)
    ensures AnsweredIds(calls + [fc]) == AnsweredIds(calls) + (if fc.name == LogTacticalInsight then [fc.id] else [])
  {
    assert (calls + [fc])[..|calls|] == calls;
  }

  /** The boss mood after the calls: the mood of the last `logTacticalInsight` call that carries one. */
  function MoodAfter(calls: seq<FunctionCall>, mood: BossMood): BossMood
  {
    if calls == [] then mood
    else
      var last := calls[|calls| - 1];
      if last.name == LogTacticalInsight && last.mood.Some? then last.mood.value
      else MoodAfter(calls[..|calls| - 1], mood)
  }

  lemma MoodAfterSnoc(calls: seq<FunctionCall>, fc: FunctionCall, mood: BossMood)
    ensures MoodAfter(calls + [fc], mood) == if fc.name == LogTacticalInsight && fc.mood.Some? then fc.mood.value else MoodAfter(calls, mood)
  {
    assert (calls + [fc])[..|calls|] == calls;
  }

  /** The insight a `logTacticalInsight` call records. */
  function InsightOf(fc: FunctionCall, now: int): TacticalInsight {
    TacticalInsight(fc.text, fc.kind, fc.mood, now)
  }

  /** The insights the `logTacticalInsight` calls record, in call order. */
  function Logged(calls: seq<FunctionCall>, now: int): seq<TacticalInsight>
  {
    if calls == [] then []
    else
      var last := calls[|calls| - 1];
      Logged(calls[..|calls| - 1], now) + (if last.name == LogTacticalInsight then [InsightOf(last, now)] else [])
  }

  /** The insight list after the calls: each `logTacticalInsight` call pushes its insight. */
  function InsightsAfter(calls: seq<FunctionCall>, now: int, prev: seq<TacticalInsight>): seq<TacticalInsight>
  {
    if calls == [] then prev
    else
      var last := calls[|calls| - 1];
      var before := InsightsAfter(calls[..|calls| - 1], now, prev);
      if last.name == LogTacticalInsight then PushInsight(before, InsightOf(last, now)) else before
  }

  /** The list after the calls is the newest four of the old list followed by every insight
      logged, in call order; when no insight is logged the list is unchanged. */
  lemma {:induction false} InsightsAfterNewest(calls: seq<FunctionCall>, now: int, prev: seq<TacticalInsight>)
    requires |prev| <= 4
    ensures InsightsAfter(calls, now, prev) == Newest(prev + Logged(calls, now), 4)
    decreases |calls|
  {
    if calls != [] {
      var init, last := calls[..|calls| - 1], calls[|calls| - 1];
      InsightsAfterNewest(init, now, prev);
      if last.name == LogTacticalInsight {
        var x := InsightOf(last, now);
        var all := prev + Logged(init, now);
        PushInsightIsNewest(all, x);
        assert prev + Logged(calls, now) == all + [x];
      } else {
        assert prev + Logged(calls, now) == prev + Logged(init, now);
      }
    }
  }

  /** The insight of the last `logTacticalInsight` call, which ends the insight list. */
  function LastInsight(calls: seq<FunctionCall>, now: int): Option<TacticalInsight>
  {
    if calls == [] then None
    else if calls[|calls| - 1].name == LogTacticalInsight then Some(InsightOf(calls[|calls| - 1], now))
    else LastInsight(calls[..|calls| - 1], now)
  }

  lemma LastInsightSnoc(calls: seq<FunctionCall>, fc: FunctionCall, now: int)
    ensures LastInsight(calls + [fc], now) == if fc.name == LogTacticalInsight then Some(InsightOf(fc, now)) else LastInsight(calls, now)
  {
    assert (calls + [fc])[..|calls|] == calls;
  }

  /** `LastInsight` is the insight of the last `logTacticalInsight` call, and there is none
      exactly when no call has that name. */
  lemma {:induction false} LastInsightIsLastCall(calls: seq<FunctionCall>, now: int)
    ensures LastInsight(calls, now).None? <==> forall j :: 0 <= j < |calls| ==> calls[j].name != LogTacticalInsight
    ensures forall i :: 0 <= i < |calls| && LastInsightCall(calls, i) ==> LastInsight(calls, now) == Some(InsightOf(calls[i], now))
    decreases |calls|
  {
    if calls != [] {
      var prefix := calls[..|calls| - 1];
      LastInsightIsLastCall(prefix, now);
      assert forall j :: 0 <= j < |prefix| ==> prefix[j] == calls[j];
      if calls[|calls| - 1].name != LogTacticalInsight {
        forall i | 0 <= i < |calls| && LastInsightCall(calls, i)
          ensures LastInsight(calls, now) == Some(InsightOf(calls[i], now))
        {
          assert i < |prefix| && LastInsightCall(prefix, i);
        }
      }
    }
  }

  /** Call `i` is the last `logTacticalInsight` call of `calls`. */
  predicate LastInsightCall(calls: seq<FunctionCall>, i: nat)
    requires i < |calls|
  {
    calls[i].name == LogTacticalInsight && forall j :: i < j < |calls| ==> calls[j].name != LogTacticalInsight
  }

  /** The frame's conversion for sending: 16-bit samples, their little-endian bytes, base64. */
  method EncodeFrame(frame: array<real>) returns (payload: string)
    ensures payload == FramePayload(frame[..])
  {
    var pcm := Float32ToInt16PCM(frame);
    assert pcm[..] == FramePcm(frame[..]);
    var wire := Int16Bytes(pcm[..]);
    var bytes := new Byte[|wire|](i requires 0 <= i < |wire| => wire[i]);
    assert bytes[..] == wire;
    payload := Uint8ArrayToBase64(bytes);
  }

  /** The tool-call loop over the insight list, the responses sent and the mood. */
  method RunToolCalls(calls: seq<FunctionCall>, now: int, insights: seq<TacticalInsight>, responses: seq<string>, mood: BossMood)
    returns (list: seq<TacticalInsight>, answered: seq<string>, newMood: BossMood)
    requires |insights| <= 4
    ensures answered == responses + AnsweredIds(calls)
    ensures |list| <= 4 && list == InsightsAfter(calls, now, insights)
    ensures LastInsight(calls, now).Some? ==> |list| > 0 && list[|list| - 1] == LastInsight(calls, now).value
    ensures LastInsight(calls, now).None? ==> list == insights
    ensures newMood == MoodAfter(calls, mood)
  {
    list, answered, newMood := insights, responses, mood;
    for i := 0 to |calls|
      invariant answered == responses + AnsweredIds(calls[..i])
      invariant |list| <= 4 && list == InsightsAfter(calls[..i], now, insights)
      invariant LastInsight(calls[..i], now).Some? ==> |list| > 0 && list[|list| - 1] == LastInsight(calls[..i], now).value
      invariant LastInsight(calls[..i], now).None? ==> list == insights
      invariant newMood == MoodAfter(calls[..i], mood)
    {
      var fc := calls[i];
      ToolCallStep(calls, i, now, mood, insights);
      if fc.name == LogTacticalInsight {
        if fc.mood.Some? {
          newMood := fc.mood.value;
        }
        var next := PushInsight(list, InsightOf(fc, now));
        assert |next| <= 4 && next[|next| - 1] == InsightOf(fc, now);
        list := next;
        answered := answered + [fc.id];
      }
    }
    assert calls[..|calls|] == calls;
  }

  /** What one more call adds to each of the loop's summaries. */
  lemma ToolCallStep(calls: seq<FunctionCall>, i: nat, now: int, mood: BossMood, prev: seq<TacticalInsight>)
    requires i < |calls|
    ensures var fc := calls[i]; var isInsight := fc.name == LogTacticalInsight;
      && AnsweredIds(calls[..i + 1]) == AnsweredIds(calls[..i]) + (if isInsight then [fc.id] else [])
      && LastInsight(calls[..i + 1], now) == (if isInsight then Some(InsightOf(fc, now)) else LastInsight(calls[..i], now))
      && MoodAfter(calls[..i + 1], mood) == (if isInsight && fc.mood.Some? then fc.mood.value else MoodAfter(calls[..i], mood))
      && InsightsAfter(calls[..i + 1], now, prev)
         == (if isInsight then PushInsight(InsightsAfter(calls[..i], now, prev), InsightOf(fc, now)) else InsightsAfter(calls[..i], now, prev))
  {
    assert calls[..i + 1] == calls[..i] + [calls[i]];
    assert calls[..i + 1][..i] == calls[..i];
    AnsweredIdsSnoc(calls[..i], calls[i]);
    LastInsightSnoc(calls[..i], calls[i], now);
    MoodAfterSnoc(calls[..i], calls[i], mood);
  }

  /** The loop behind the VAD level: the sum of the squared samples. */
  method SumOfSquares(frame: array<real>) returns (sum: real)
    ensures sum == SumSquares(frame[..])
  {
    sum := 0.0;
    var i := 0;
    while i < frame.Length
      invariant 0 <= i <= frame.Length
      invariant sum == SumSquares(frame[..i])
    {
      assert frame[..i + 1][..i] == frame[..i];
      sum := sum + frame[i] * frame[i];
      i := i + 1;
    }
    assert frame[..i] == frame[..];
  }
}

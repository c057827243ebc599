/** The value-level rules of hooks/useLiveSession.ts: the device lists, the transcript reconciler,
    the gapless playback cursor, the microphone frame gate and its payload, and
    the rolling list of tactical insights. The hook's state lives in LiveSession. */
module SessionRules {
  import opened Wrappers
  import opened Text
  import opened Types
  import opened Base64
  import opened AudioUtils

  const InputSampleRate: nat := 16000
  const OutputSampleRate: nat := 24000
  /** Samples per microphone frame (the script processor's buffer size). */
  const BufferSize: nat := 4096

  datatype DeviceKind = AudioInput | AudioOutput | VideoInput

  /** A media device as `enumerateDevices` reports it. */
  datatype Device = Device(deviceId: string, kind: DeviceKind)

  /** `devices.filter(d => d.kind === kind)`. */
  function OfKind(devices: seq<Device>, kind: DeviceKind): (r: seq<Device>)
    ensures |r| <= |devices|
    ensures forall d :: d in r <==> d in devices && d.kind == kind
  {
    if devices == [] then []
    else (if devices[0].kind == kind then [devices[0]] else []) + OfKind(devices[1..], kind)
  }

  /** The filter distributes over concatenation, so the enumeration's order and
      repeated entries are kept. */
  lemma {:induction false} OfKindAppend(a: seq<Device>, b: seq<Device>, kind: DeviceKind)
    ensures OfKind(a + b, kind) == OfKind(a, kind) + OfKind(b, kind)
  {
    if a != [] {
      assert (a + b)[1..] == a[1..] + b;
      OfKindAppend(a[1..], b, kind);
    } else {
      assert a + b == b;
    }
  }

  /** The trailing item can be amended: it exists, has this role and is still partial. */
  predicate Amends(prev: seq<TranscriptItem>, role: Role) {
    |prev| > 0 && prev[|prev| - 1].role == role && prev[|prev| - 1].isPartial
  }

  /** `updateTranscript`'s state update. `now` is `Date.now()` and `nonce` the `Math.random()` in a new id;
      `text.trim().length > 0` is `!Blank(text)`, as `Trim`'s contract shows. */
  function UpdateTranscript(prev: seq<TranscriptItem>, role: Role, text: string, isFinal: bool, now: int, nonce: real)
    : (r: seq<TranscriptItem>)
    ensures Amends(prev, role) ==>
      |r| == |prev| && r[..|prev| - 1] == prev[..|prev| - 1]
      && r[|r| - 1] == prev[|prev| - 1].(text := text, isPartial := !isFinal, timestamp := now)
    ensures !Amends(prev, role) && !Text.Blank(text) ==>
      r == prev + [TranscriptItem(ItemId(role, now, nonce), role, text, !isFinal, now)]
    ensures !Amends(prev, role) && Text.Blank(text) ==> r == prev
  {
    if Amends(prev, role) then
      prev[..|prev| - 1] + [prev[|prev| - 1].(text := text, isPartial := !isFinal, timestamp := now)]
    else if !Text.Blank(text) then
      prev + [TranscriptItem(ItemId(role, now, nonce), role, text, !isFinal, now)]
    else prev
  }

  /** Items of the other role are never touched: the old transcript is a prefix of the new one. */
  lemma OtherRoleNeverAmended(prev: seq<TranscriptItem>, role: Role, text: string, isFinal: bool, now: int, nonce: real)
    requires |prev| > 0 && prev[|prev| - 1].role != role
    ensures var r := UpdateTranscript(prev, role, text, isFinal, now, nonce);
      |r| >= |prev| && r[..|prev|] == prev
  {
  }

  /** An amendment keeps the item's identity and role. */
  lemma AmendKeepsIdentity(prev: seq<TranscriptItem>, role: Role, text: string, isFinal: bool, now: int, nonce: real)
    requires Amends(prev, role)
    ensures var r := UpdateTranscript(prev, role, text, isFinal, now, nonce);
      r[|r| - 1].id == prev[|prev| - 1].id && r[|r| - 1].role == role
  {
  }

  /** Resending the same partial text at the same instant changes nothing the second time. */
  lemma RepeatedPartialIsIdempotent(prev: seq<TranscriptItem>, role: Role, text: string, now: int, nonce1: real, nonce2: real)
    requires Amends(prev, role) || !Text.Blank(text)
    ensures var once := UpdateTranscript(prev, role, text, false, now, nonce1);
      UpdateTranscript(once, role, text, false, now, nonce2) == once
  {
    var once := UpdateTranscript(prev, role, text, false, now, nonce1);
    assert Amends(once, role);
    assert once[..|once| - 1] + [once[|once| - 1]] == once;
  }

  /** A final update closes the trailing item: the next update of either role cannot amend it. */
  lemma FinalClosesItem(prev: seq<TranscriptItem>, role: Role, text: string, now: int, nonce: real, next: Role)
    requires Amends(prev, role) || !Text.Blank(text)
    ensures !Amends(UpdateTranscript(prev, role, text, true, now, nonce), next)
  {
  }

  /** `r` keeps every item of `prev` but possibly the last, and drops none. */
  predicate KeepsHistory(prev: seq<TranscriptItem>, r: seq<TranscriptItem>) {
    |prev| <= |r| && (|prev| > 0 ==> r[..|prev| - 1] == prev[..|prev| - 1])
  }

  /** An update rewrites at most the trailing item and adds at most one. */
  lemma UpdateKeepsHistory(prev: seq<TranscriptItem>, role: Role, text: string, isFinal: bool, now: int, nonce: real)
    ensures var r := UpdateTranscript(prev, role, text, isFinal, now, nonce);
      KeepsHistory(prev, r) && |r| <= |prev| + 1
  {
    var r := UpdateTranscript(prev, role, text, isFinal, now, nonce);
    if !Amends(prev, role) && !Text.Blank(text) && |prev| > 0 {
      assert r[..|prev| - 1] == (prev + [r[|prev|]])[..|prev| - 1];
    }
  }

  lemma KeepsHistoryTransitive(a: seq<TranscriptItem>, b: seq<TranscriptItem>, c: seq<TranscriptItem>)
    requires KeepsHistory(a, b) && KeepsHistory(b, c)
    ensures KeepsHistory(a, c)
  {
    if |a| > 0 {
      assert c[..|a| - 1] == c[..|b| - 1][..|a| - 1];
      assert b[..|a| - 1] == b[..|b| - 1][..|a| - 1];
    }
  }

  /** Where a chunk arriving at `currentTime` starts: at the cursor, unless the clock has passed it. */
  function StartTime(cursor: real, currentTime: real): (start: real)
    ensures start >= cursor && start >= currentTime
    ensures start == cursor || start == currentTime
  {
    if cursor < currentTime then currentTime else cursor
  }

  /** An audio chunk: the output clock when it arrives and its duration in seconds. */
  datatype Chunk = Chunk(arrival: real, duration: real)

  /** The start times the cursor gives a stream of chunks. */
  function Schedule(cursor: real, chunks: seq<Chunk>): (starts: seq<real>)
    ensures |starts| == |chunks|
    decreases |chunks|
  {
    if chunks == [] then []
    else
      var start := StartTime(cursor, chunks[0].arrival);
      [start] + Schedule(start + chunks[0].duration, chunks[1..])
  }

  /** Chunks are never scheduled in the past or over each other, and follow each other
      without a gap whenever the clock has not overtaken the cursor. */
  lemma {:induction false} ScheduleIsGapless(cursor: real, chunks: seq<Chunk>)
    requires forall i :: 0 <= i < |chunks| ==> chunks[i].duration >= 0.0
    ensures var starts := Schedule(cursor, chunks);
      && (forall i :: 0 <= i < |chunks| ==> starts[i] >= chunks[i].arrival)
      && (|chunks| > 0 ==> starts[0] >= cursor)
      && (forall i :: 0 <= i < |chunks| - 1 ==> starts[i + 1] >= starts[i] + chunks[i].duration)
      && (forall i :: 0 <= i < |chunks| - 1 && chunks[i + 1].arrival <= starts[i] + chunks[i].duration ==>
            starts[i + 1] == starts[i] + chunks[i].duration)
    decreases |chunks|
  {
    if chunks != [] {
      var start := StartTime(cursor, chunks[0].arrival);
      var rest := chunks[1..];
      ScheduleIsGapless(start + chunks[0].duration, rest);
      var starts := Schedule(cursor, chunks);
      assert starts[1..] == Schedule(start + chunks[0].duration, rest);
      forall i | 1 <= i < |chunks| ensures starts[i] >= chunks[i].arrival {
        assert starts[i] == starts[1..][i - 1] && chunks[i] == rest[i - 1];
      }
      forall i | 0 <= i < |chunks| - 1
        ensures starts[i + 1] >= starts[i] + chunks[i].duration
        ensures chunks[i + 1].arrival <= starts[i] + chunks[i].duration ==> starts[i + 1] == starts[i] + chunks[i].duration
      {
        if i > 0 {
          assert starts[i] == starts[1..][i - 1] && starts[i + 1] == starts[1..][i];
          assert chunks[i] == rest[i - 1] && chunks[i + 1] == rest[i];
        }
      }
    }
  }

  /** `sum += x * x` over the frame. */
  function SumSquares(frame: seq<real>): (r: real)
    ensures r >= 0.0
  {
    if frame == [] then 0.0 else SumSquares(frame[..|frame| - 1]) + frame[|frame| - 1] * frame[|frame| - 1]
  }

  /** `Math.sqrt(sum / n) < threshold`, compared through squares. An empty frame gives `NaN`, which is never below. */
  predicate RmsBelow(frame: seq<real>, threshold: real) {
    |frame| > 0 && threshold > 0.0 && SumSquares(frame) / |frame| as real < threshold * threshold
  }

  /** Comparing squares is comparing roots: for the root `rms` of a mean square `ms`, `rms < t` exactly when `t > 0` and `ms < t * t`. */
  lemma SquareComparison(ms: real, rms: real, t: real)
    requires rms >= 0.0 && rms * rms == ms
    ensures rms < t <==> t > 0.0 && ms < t * t
  {
    if rms < t {
      MulNonNegative(t - rms, rms);
      MulPositive(t - rms, t);
      assert (t - rms) * rms == t * rms - rms * rms;
      assert (t - rms) * t == t * t - rms * t;
    } else if t > 0.0 {
      MulNonNegative(rms - t, t);
      MulNonNegative(rms - t, rms);
      assert (rms - t) * t == rms * t - t * t;
      assert (rms - t) * rms == rms * rms - t * rms;
    }
  }

  lemma MulNonNegative(a: real, b: real)
    requires a >= 0.0 && b >= 0.0
    ensures a * b >= 0.0
  {
  }

  lemma MulPositive(a: real, b: real)
    requires a > 0.0 && b > 0.0
    ensures a * b > 0.0
  {
  }

  /** The gate in `onaudioprocess`: not muted; in PTT the key is held; in VAD the level reaches the threshold. */
  predicate ShouldSend(muted: bool, mode: InputMode, pttPressed: bool, frame: seq<real>, threshold: real) {
    !muted && (mode == PTT ==> pttPressed) && (mode == VAD ==> !RmsBelow(frame, threshold))
  }

  /** Push-to-talk ignores the level: any frame passes while the key is held. */
  lemma PttSkipsLevel(frame: seq<real>, threshold: real)
    ensures ShouldSend(false, PTT, true, frame, threshold)
  {
  }

  /** A zero threshold lets every frame through in VAD mode. */
  lemma ZeroThresholdPassesAll(frame: seq<real>)
    ensures ShouldSend(false, VAD, false, frame, 0.0)
  {
  }

  /** The 16-bit samples sent for a frame. */
  function FramePcm(frame: seq<real>): (pcm: seq<int>)
    ensures |pcm| == |frame| && forall i :: 0 <= i < |frame| ==> pcm[i] == Int16Sample(frame[i])
  {
    seq(|frame|, i requires 0 <= i < |frame| => Int16Sample(frame[i]))
  }

  /** The base64 payload of `sendRealtimeInput` for a frame. */
  function FramePayload(frame: seq<real>): string {
    Encode(Int16Bytes(FramePcm(frame)))
  }

  /** The payload carries two bytes per sample and decodes back to the frame's 16-bit samples. */
  lemma PayloadDecodes(frame: seq<real>)
    ensures Atob(FramePayload(frame)).Ok?
    ensures |Atob(FramePayload(frame)).value| == 2 * |frame|
    ensures Int16View(CharCodes(Atob(FramePayload(frame)).value)) == Ok(FramePcm(frame))
  {
    var pcm := FramePcm(frame);
    forall i | 0 <= i < |pcm| ensures -32768 <= pcm[i] <= 32767 {
      Int16SampleRange(frame[i]);
    }
    Base64BytesRoundTrip(Int16Bytes(pcm));
    Int16BytesRoundTrip(pcm);
  }

  /** A full frame of 4096 samples is 8192 bytes on the wire. */
  lemma FullFramePayload(frame: seq<real>)
    requires |frame| == BufferSize
    ensures Atob(FramePayload(frame)).Ok? && |Atob(FramePayload(frame)).value| == 8192
  {
    PayloadDecodes(frame);
  }

  /** `[...prev.slice(-3), insight]`. */
  function PushInsight(prev: seq<TacticalInsight>, insight: TacticalInsight): (r: seq<TacticalInsight>)
    ensures |r| == (if |prev| < 3 then |prev| else 3) + 1
    ensures r[|r| - 1] == insight
  {
    (if |prev| > 3 then prev[|prev| - 3..] else prev) + [insight]
  }

  /** The insights kept before the new one are the newest of the old ones, in order. */
  lemma PushInsightKeepsNewest(prev: seq<TacticalInsight>, insight: TacticalInsight)
    ensures var r := PushInsight(prev, insight);
      r[..|r| - 1] == prev[|prev| - (|r| - 1)..]
  {
  }

  /** The last `n` entries of `s`, or all of them when there are fewer. */
  function Newest(s: seq<TacticalInsight>, n: nat): seq<TacticalInsight> {
    if |s| <= n then s else s[|s| - n..]
  }

  /** Pushing an insight keeps the newest four of the old list with the new one appended,
      so pushing onto an already trimmed list loses nothing more than pushing onto the whole one. */
  lemma PushInsightIsNewest(prev: seq<TacticalInsight>, insight: TacticalInsight)
    ensures PushInsight(prev, insight) == Newest(prev + [insight], 4)
    ensures PushInsight(Newest(prev, 4), insight) == PushInsight(prev, insight)
  {
    if |prev| > 3 {
      assert (prev + [insight])[|prev| + 1 - 4..] == prev[|prev| - 3..] + [insight];
    }
    if |prev| > 4 {
      assert prev[|prev| - 4..][1..] == prev[|prev| - 3..];
    }
  }
}

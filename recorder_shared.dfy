/** The per-stream recorder of app/contexts/recorder/shared.ts: the voice-activity
    tick (`detectSound`), the segment emitter (`emitAudioChunk`) and the stop
    branch of the recording effect. The analyser is abstracted into one boolean
    per tick ("some frequency bin is above zero"); clock readings and fresh
    UUIDs are parameters. */
module RecorderShared {
  import opened Wrappers
  import opened Utils

  const SPEECH_THRESHOLD := 15
  const SILENCE_THRESHOLD := 88
  const MAX_BUFFER_TIME := 1000

  // ---------------------------------------------------------------------------
  // The tick decision

  /** The speech and silence run counters. */
  datatype Counters = Counters(speech: int, silence: int)

  /** What one tick decides: whether it force-flushes a long utterance, whether it
      closes an utterance, and the counters it leaves. */
  datatype Tick = Tick(forcedFlush: bool, utteranceEnd: bool, next: Counters)

  /** One `detectSound` tick on counters `c`. The forced flush is checked first and
      resets speech; both threshold tests then use the counters as they are at that
      point, before this tick's increment. */
  function NextTick(c: Counters, sound: bool): (t: Tick)
    ensures !(t.forcedFlush && t.utteranceEnd)
    ensures 0 <= c.speech <= MAX_BUFFER_TIME + 1 && c.silence >= 0 ==>
      0 <= t.next.speech <= MAX_BUFFER_TIME + 1 && t.next.silence >= 0
    ensures t.forcedFlush || t.utteranceEnd ==> t.next.speech <= 1
  {
    var forced := c.speech > MAX_BUFFER_TIME;
    var speech := if forced then 0 else c.speech;
    var speaking := speech > SPEECH_THRESHOLD;
    var silent := c.silence > SILENCE_THRESHOLD;
    if sound then
      Tick(forced, false, Counters(speech + 1, if speaking then 0 else c.silence))
    else
      Tick(forced, silent && speaking, Counters(if silent then 0 else speech, c.silence + 1))
  }

  predicate Flushes(t: Tick)
  {
    t.forcedFlush || t.utteranceEnd
  }

  /** The counters after a run of ticks. */
  function FinalCounters(c: Counters, sounds: seq<bool>): Counters
    decreases |sounds|
  {
    if sounds == [] then c else FinalCounters(NextTick(c, sounds[0]).next, sounds[1..])
  }

  /** The number of segments a run of ticks emits. */
  function FlushCount(c: Counters, sounds: seq<bool>): nat
    decreases |sounds|
  {
    if sounds == [] then 0
    else (if Flushes(NextTick(c, sounds[0])) then 1 else 0) + FlushCount(NextTick(c, sounds[0]).next, sounds[1..])
  }

  function Repeat(b: bool, n: nat): (r: seq<bool>)
    ensures |r| == n && forall i :: 0 <= i < n ==> r[i] == b
  {
    seq(n, _ => b)
  }

  /** Running `a` then `b` is running `a + b`. */
  lemma {:induction false} RunAppend(c: Counters, a: seq<bool>, b: seq<bool>)
    ensures FinalCounters(c, a + b) == FinalCounters(FinalCounters(c, a), b)
    ensures FlushCount(c, a + b) == FlushCount(c, a) + FlushCount(FinalCounters(c, a), b)
    decreases |a|
  {
    if a == [] {
      assert a + b == b;
    } else {
      assert (a + b)[0] == a[0];
      assert (a + b)[1..] == a[1..] + b;
      RunAppend(NextTick(c, a[0]).next, a[1..], b);
    }
  }

  /** A run of sound that keeps speech at or below 1001 emits nothing and counts
      every tick; silence is cleared once a tick starts above the speech threshold
      and is untouched while no tick does. */
  lemma {:induction false} SoundRun(c: Counters, n: nat)
    requires 0 <= c.speech && c.speech + n <= MAX_BUFFER_TIME + 1
    ensures FlushCount(c, Repeat(true, n)) == 0
    ensures FinalCounters(c, Repeat(true, n)).speech == c.speech + n
    ensures n >= 1 && c.speech + n - 1 > SPEECH_THRESHOLD ==> FinalCounters(c, Repeat(true, n)).silence == 0
    ensures c.speech + n <= SPEECH_THRESHOLD + 1 ==> FinalCounters(c, Repeat(true, n)).silence == c.silence
    decreases n
  {
    if n > 0 {
      assert Repeat(true, n)[1..] == Repeat(true, n - 1);
      SoundRun(NextTick(c, true).next, n - 1);
    }
  }

  /** While speech is at or below the threshold, silence never emits and never raises speech. */
  lemma {:induction false} QuietRun(c: Counters, m: nat)
    requires 0 <= c.speech <= SPEECH_THRESHOLD
    ensures FlushCount(c, Repeat(false, m)) == 0
    decreases m
  {
    if m > 0 {
      assert Repeat(false, m)[1..] == Repeat(false, m - 1);
      QuietRun(NextTick(c, false).next, m - 1);
    }
  }

  /** After an utterance (speech above the threshold, silence `c.silence` at most 89),
      silence closes it exactly once, on the tick that starts with silence 89. */
  lemma {:induction false} SilenceAfterSpeech(c: Counters, m: nat)
    requires SPEECH_THRESHOLD < c.speech <= MAX_BUFFER_TIME
    requires 0 <= c.silence <= SILENCE_THRESHOLD + 1
    ensures FlushCount(c, Repeat(false, m)) == if c.silence + m > SILENCE_THRESHOLD + 1 then 1 else 0
    decreases m
  {
    if m > 0 {
      assert Repeat(false, m)[1..] == Repeat(false, m - 1);
      var t := NextTick(c, false);
      if c.silence == SILENCE_THRESHOLD + 1 {
        QuietRun(t.next, m - 1);
      } else {
        SilenceAfterSpeech(t.next, m - 1);
      }
    }
  }

  /** No flush on noise: a burst of at most 15 sound ticks (counted from speech 0)
      followed by any amount of silence emits nothing. */
  lemma NoFlushOnNoise(silence: nat, k: nat, m: nat)
    requires k <= SPEECH_THRESHOLD
    ensures FlushCount(Counters(0, silence), Repeat(true, k) + Repeat(false, m)) == 0
  {
    var c := Counters(0, silence);
    RunAppend(c, Repeat(true, k), Repeat(false, m));
    SoundRun(c, k);
    QuietRun(FinalCounters(c, Repeat(true, k)), m);
  }

  /** Utterance boundary: after at least 17 and at most 1000 sound ticks from speech
      0, `m` silent ticks emit one segment iff `m` exceeds 89, i.e. on the 90th. */
  lemma UtteranceFlush(silence: nat, k: nat, m: nat)
    requires SPEECH_THRESHOLD + 2 <= k <= MAX_BUFFER_TIME
    ensures FlushCount(Counters(0, silence), Repeat(true, k) + Repeat(false, m)) ==
      if m > SILENCE_THRESHOLD + 1 then 1 else 0
  {
    var c := Counters(0, silence);
    RunAppend(c, Repeat(true, k), Repeat(false, m));
    SoundRun(c, k);
    SilenceAfterSpeech(FinalCounters(c, Repeat(true, k)), m);
  }

  /** Maximum buffer time: continuous sound from speech 0 emits nothing for 1001
      ticks and force-flushes on tick 1002, the first to start above 1000. */
  lemma ForcedFlushTiming(silence: nat)
    ensures FlushCount(Counters(0, silence), Repeat(true, MAX_BUFFER_TIME + 1)) == 0
    ensures FlushCount(Counters(0, silence), Repeat(true, MAX_BUFFER_TIME + 2)) == 1
  {
    var c := Counters(0, silence);
    SoundRun(c, MAX_BUFFER_TIME + 1);
    assert Repeat(true, MAX_BUFFER_TIME + 2) == Repeat(true, MAX_BUFFER_TIME + 1) + [true];
    RunAppend(c, Repeat(true, MAX_BUFFER_TIME + 1), [true]);
    assert [true][1..] == [];
  }

  /** The silence counter starts at 88, so a first utterance of only 16 sound ticks
      (which never clears it) is closed by the second silent tick. */
  lemma FirstUtteranceClosesEarly()
    ensures FlushCount(Counters(0, SILENCE_THRESHOLD), Repeat(true, SPEECH_THRESHOLD + 1) + Repeat(false, 2)) == 1
  {
    var c := Counters(0, SILENCE_THRESHOLD);
    RunAppend(c, Repeat(true, SPEECH_THRESHOLD + 1), Repeat(false, 2));
    SoundRun(c, SPEECH_THRESHOLD + 1);
    SilenceAfterSpeech(FinalCounters(c, Repeat(true, SPEECH_THRESHOLD + 1)), 2);
  }

  // ---------------------------------------------------------------------------
  // The segment emitter

  /** What `emitAudioChunk` reads from the app and Supabase contexts. */
  datatype EmitContext = EmitContext(
    selectedMeetingId: Option<string>,
    openaiApiKey: string,
    credits: Option<int>,
    userId: Option<string>)

  /** The guard of `emitAudioChunk`: a selected meeting, an API key or a truthy
      (non-zero) credit count, and a user. Its `!data.buffer` test never fails,
      since every `ArrayBuffer`, even an empty one, is truthy. */
  predicate CanEmit(ctx: EmitContext)
  {
    && ctx.selectedMeetingId.Some? && ctx.selectedMeetingId.value != ""
    && (ctx.openaiApiKey != "" || (ctx.credits.Some? && ctx.credits.value != 0))
    && ctx.userId.Some? && ctx.userId.value != ""
  }

  /** The `ClientTranscriptionJob` sent for one segment (its status is "pending"). */
  datatype TranscriptionRequest = TranscriptionRequest(
    id: string,
    meetingId: string,
    timestamp: int,
    openaiApiKey: string,
    sender: string,
    buffer: Bytes,
    isLastChunk: bool)

  /** A segment after header handling: the cached header and the bytes sent. */
  datatype Framed = Framed(header: Bytes, payload: Bytes)

  /** Header handling of `emitAudioChunk`: with no cached header the first 44 bytes
      of the segment become the header and the segment is sent unchanged (failing
      when it is shorter); otherwise the cached header is prepended. */
  function Frame(header: Option<Bytes>, segment: Bytes): (r: Result<Framed, HeaderError>)
    ensures r.Err? <==> header.None? && |segment| < HEADER_LENGTH
    ensures r.Ok? && header.None? ==> r.value.payload == segment && r.value.header == segment[..HEADER_LENGTH]
    ensures r.Ok? && header.Some? ==> r.value.header == header.value
    ensures r.Ok? ==> r.value.header <= r.value.payload
  {
    match header
    case None =>
      (match ExtractWavHeader(segment)
       case Ok(h) => Ok(Framed(h, segment))
       case Err(e) => Err(e))
    case Some(h) =>
      FlattenTwo(h, segment);
      Ok(Framed(h, Flatten([Some(h), Some(segment)])))
  }

  lemma FlattenTwo(a: Bytes, b: Bytes)
    ensures Flatten([Some(a), Some(b)]) == a + b
  {
    assert [Some(a), Some(b)][1..] == [Some(b)];
    assert [Some(b)][1..] == [];
    assert Flatten([Some(b)]) == b + [];
    assert b + [] == b;
  }

  /** The sender of a job: the hook's `sender` option when it is truthy, else the user. */
  function FinalSender(sender: Option<string>, ctx: EmitContext): string
    requires CanEmit(ctx)
  {
    if sender.Some? && sender.value != "" then sender.value else ctx.userId.value
  }

  function Request(ctx: EmitContext, id: string, sender: Option<string>, payload: Bytes, isLastChunk: bool, now: int)
    : TranscriptionRequest
    requires CanEmit(ctx)
  {
    TranscriptionRequest(id, ctx.selectedMeetingId.value, now, ctx.openaiApiKey, FinalSender(sender, ctx), payload, isLastChunk)
  }

  /** The buffered chunks as the argument list of `concatArrayBuffers`. */
  function AsViews(buffers: seq<Bytes>): (r: seq<Option<Bytes>>)
    ensures |r| == |buffers| && forall i :: 0 <= i < |r| ==> r[i] == Some(buffers[i])
  {
    seq(|buffers|, i requires 0 <= i < |buffers| => Some(buffers[i]))
  }

  /** The segment a tick would emit: every buffered chunk, in arrival order. */
  function Segment(buffers: seq<Bytes>): Bytes
  {
    Flatten(AsViews(buffers))
  }

  /** The model of one recording pipeline (`useBaseRecorder`). */
  class BaseRecorder {
    /** The hook's `sender` option (absent for the microphone). */
    const sender: Option<string>
    /** `mediaStream.current != null`. */
    var hasStream: bool
    /** `analyserRef.current != null`; ticks do nothing without it. */
    var hasAnalyser: bool
    var speechCounter: int
    var silenceCounter: int
    /** `audioChunksRef.current`. */
    var headerBuffer: Option<Bytes>
    var buffers: seq<Bytes>
    /** `speechIdRef.current`. */
    var speechId: string
    /** Every job handed to the transcription queue, in order. */
    var requests: seq<TranscriptionRequest>
    /** Where the current recording session starts in `requests`. */
    ghost var sessionStart: nat
    /** Every speech id this pipeline has used. */
    ghost var usedIds: set<string>

    ghost predicate Valid()
      reads this
    {
      && 0 <= speechCounter <= MAX_BUFFER_TIME + 1
      && silenceCounter >= 0
      && (headerBuffer.Some? ==> |headerBuffer.value| == HEADER_LENGTH)
      && sessionStart <= |requests|
      && (forall k :: sessionStart <= k < |requests| ==> requests[k].id == speechId)
      && speechId in usedIds
    }

    /** The hook's refs on first render: speech 0, silence 88, no chunks, a fresh id. */
    constructor(sender: Option<string>, initialId: string)
      ensures Valid()
      ensures this.sender == sender && speechId == initialId && usedIds == {initialId}
      ensures speechCounter == 0 && silenceCounter == SILENCE_THRESHOLD
      ensures headerBuffer.None? && buffers == [] && requests == []
      ensures !hasStream && !hasAnalyser
    {
      this.sender := sender;
      hasStream, hasAnalyser := false, false;
      speechCounter, silenceCounter := 0, SILENCE_THRESHOLD;
      headerBuffer, buffers := None, [];
      speechId, usedIds := initialId, {initialId};
      requests, sessionStart := [], 0;
    }

    function Counts(): Counters
      reads this
    {
      Counters(speechCounter, silenceCounter)
    }

    /** `audioChunksRef.current = {headerBuffer: null, buffers: []}`. */
    method ResetChunks()
      requires Valid()
      modifies this`headerBuffer, this`buffers
      ensures Valid()
      ensures headerBuffer.None? && buffers == []
    {
      headerBuffer, buffers := None, [];
    }

    /** `mediaStream.current = stream`. */
    method AttachStream()
      requires Valid()
      modifies this`hasStream
      ensures Valid()
      ensures hasStream
    {
      hasStream := true;
    }

    /** `emitAudioChunk({buffer, isLastChunk})`. `threw` is the error `extractWavHeader`
        throws on a segment shorter than a header while none is cached. */
    method EmitAudioChunk(ctx: EmitContext, buffer: Bytes, isLastChunk: bool, now: int) returns (threw: bool)
      requires Valid()
      modifies this`headerBuffer, this`requests
      ensures Valid()
      ensures threw <==> CanEmit(ctx) && Frame(old(headerBuffer), buffer).Err?
      ensures !CanEmit(ctx) || threw ==> headerBuffer == old(headerBuffer) && requests == old(requests)
      ensures CanEmit(ctx) && !threw ==>
        var f := Frame(old(headerBuffer), buffer).value;
        && headerBuffer == Some(f.header)
        && requests == old(requests) + [Request(ctx, speechId, sender, f.payload, isLastChunk, now)]
      ensures CanEmit(ctx) && !threw ==>
        headerBuffer.Some? && |requests[|requests| - 1].buffer| >= HEADER_LENGTH &&
        requests[|requests| - 1].buffer[..HEADER_LENGTH] == headerBuffer.value
    {
      threw := false;
      if !CanEmit(ctx) {
        return;
      }
      var data := buffer;
      if headerBuffer.None? {
        var header := ExtractWavHeader(buffer);
        if header.Err? {
          threw := true;
          return;
        }
        headerBuffer := Some(header.value);
      } else {
        data := ConcatArrayBuffers([headerBuffer, Some(buffer)]);
      }
      var finalSender := if sender.Some? && sender.value != "" then sender.value else ctx.userId.value;
      requests := requests + [TranscriptionRequest(speechId, ctx.selectedMeetingId.value, now, ctx.openaiApiKey, finalSender, data, isLastChunk)];
    }

    /** One `detectSound` tick. `scheduled` says whether it requested the next
        animation frame: not without an analyser, and not when an emission threw,
        which abandons the rest of the tick. */
    method DetectSound(ctx: EmitContext, soundDetected: bool, now: int) returns (scheduled: bool)
      requires Valid()
      modifies this`speechCounter, this`silenceCounter, this`buffers, this`headerBuffer, this`requests
      ensures Valid()
      ensures !old(hasAnalyser) ==>
        !scheduled && Counts() == old(Counts()) && buffers == old(buffers) &&
        headerBuffer == old(headerBuffer) && requests == old(requests)
      ensures old(hasAnalyser) ==>
        var t := NextTick(old(Counts()), soundDetected);
        var f := Frame(old(headerBuffer), Segment(old(buffers)));
        var emits := Flushes(t) && CanEmit(ctx);
        && scheduled == !(emits && f.Err?)
        && (scheduled ==>
              && Counts() == t.next
              && buffers == (if Flushes(t) then [] else old(buffers))
              && headerBuffer == (if emits then Some(f.value.header) else old(headerBuffer))
              && requests == old(requests) + (if emits then [Request(ctx, speechId, sender, f.value.payload, false, now)] else []))
        && (!scheduled ==>
              && headerBuffer == old(headerBuffer) && requests == old(requests)
              && speechCounter == old(speechCounter)
              && (t.forcedFlush ==> silenceCounter == old(silenceCounter) && buffers == old(buffers))
              && (t.utteranceEnd ==> silenceCounter == old(silenceCounter) + 1 && buffers == []))
    {
      if !hasAnalyser {
        return false;
      }
      var concatenatedBuffer := ConcatArrayBuffers(AsViews(buffers));

      if speechCounter > MAX_BUFFER_TIME {
        var threw := EmitAudioChunk(ctx, concatenatedBuffer, false, now);
        if threw {
          return false;
        }
        buffers := [];
        speechCounter := 0;
      }

      var speakingThresholdExceeded := speechCounter > SPEECH_THRESHOLD;
      var silenceThresholdExceeded := silenceCounter > SILENCE_THRESHOLD;

      if soundDetected {
        speechCounter := speechCounter + 1;
        if speakingThresholdExceeded {
          silenceCounter := 0;
        }
      } else {
        silenceCounter := silenceCounter + 1;
        if silenceThresholdExceeded {
          if speakingThresholdExceeded {
            buffers := [];
            var threw := EmitAudioChunk(ctx, concatenatedBuffer, false, now);
            if threw {
              return false;
            }
          }
          speechCounter := 0;
        }
      }
      return true;
    }

    /** The recording effect. With no stream it does nothing. When recording it
        (re)creates the analyser and schedules a tick; otherwise it drops the
        analyser, clears header and chunks, draws a fresh speech id and forgets the
        stream, leaving both counters as they are. */
    method RecordingChanged(isRecording: bool, freshId: string) returns (scheduled: bool)
      requires Valid()
      requires freshId !in usedIds
      modifies this
      ensures Valid()
      ensures requests == old(requests) && Counts() == old(Counts())
      ensures scheduled <==> old(hasStream) && isRecording
      ensures !old(hasStream) ==>
        hasAnalyser == old(hasAnalyser) && headerBuffer == old(headerBuffer) && buffers == old(buffers) &&
        speechId == old(speechId) && !hasStream
      ensures old(hasStream) && isRecording ==>
        hasAnalyser && hasStream && headerBuffer == old(headerBuffer) && buffers == old(buffers) &&
        speechId == old(speechId)
      ensures old(hasStream) && !isRecording ==>
        && !hasAnalyser && !hasStream && headerBuffer.None? && buffers == []
        && speechId == freshId && speechId != old(speechId)
        && sessionStart == |requests|
    {
      if !hasStream {
        return false;
      }
      hasAnalyser := true;
      if isRecording {
        return true;
      }
      hasAnalyser := false;
      headerBuffer, buffers := None, [];
      speechId := freshId;
      usedIds := usedIds + {freshId};
      sessionStart := |requests|;
      hasStream := false;
      return false;
    }
  }
}

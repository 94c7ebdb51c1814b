/** The recorder context of app/contexts/recorder/index.client.tsx: the flag
    reducer and the provider that starts and stops the microphone and tab
    pipelines. Media devices are abstracted into "was a stream granted" inputs
    and delivered chunks into method calls. */
module RecorderContext {
  import opened Wrappers
  import opened Lists
  import opened ReducerHelpers
  import opened Utils
  import opened RecorderShared

  /** The recorder flags, which double as the reducer's action types. */
  datatype RecorderFlag =
    | Idle
    | MicRecording
    | TabRecording
    | MicRecordingError
    | TabRecordingError
    | MicRecordingStopped
    | TabRecordingStopped

  function InitialState(): seq<RecorderFlag>
  {
    [Idle]
  }

  /** The flags a `MIC_RECORDING` toggle clears before appending itself. */
  predicate ClearedByMicStart(f: RecorderFlag)
  {
    f == Idle || f == MicRecordingStopped || f == MicRecordingError
  }

  predicate ClearedByTabStart(f: RecorderFlag)
  {
    f == Idle || f == TabRecordingStopped || f == TabRecordingError
  }

  /** `toggleState(states, type)`: a stop or error type removes every copy of its
      recording flag; a recording type removes Idle and its own stopped and error flags
      and appends one copy of itself (without checking for one already present); any
      other type is added as `safeUpdateState` adds it. */
  function ToggleState(states: seq<RecorderFlag>, flag: RecorderFlag): seq<RecorderFlag>
  {
    if flag == MicRecordingStopped || flag == MicRecordingError then Clearing(states, IsMicFlag)
    else if flag == TabRecordingStopped || flag == TabRecordingError then Clearing(states, IsTabFlag)
    else if flag == MicRecording then Clearing(states, ClearedByMicStart) + [flag]
    else if flag == TabRecording then Clearing(states, ClearedByTabStart) + [flag]
    else SafeUpdateState(states, flag)
  }

  /** The filtering every branch but the last does: the flags `cleared` names go. */
  function Clearing(states: seq<RecorderFlag>, cleared: RecorderFlag -> bool): seq<RecorderFlag>
  {
    Filter(states, Kept(cleared))
  }

  function Kept(cleared: RecorderFlag -> bool): RecorderFlag -> bool
  {
    s => !cleared(s)
  }

  /** Clearing keeps the order of what stays and removes every copy of what goes. */
  lemma ClearingCounts(states: seq<RecorderFlag>, cleared: RecorderFlag -> bool)
    ensures IsSubsequence(Clearing(states, cleared), states)
    ensures forall x :: multiset(Clearing(states, cleared))[x] == if cleared(x) then 0 else multiset(states)[x]
  {
    FilterIsSubsequence(states, Kept(cleared));
    forall x ensures multiset(Filter(states, Kept(cleared)))[x] == if cleared(x) then 0 else multiset(states)[x] {
      FilterCount(states, Kept(cleared), x);
    }
  }

  /** A list holding only flags to clear is emptied. */
  lemma ClearingAll(states: seq<RecorderFlag>, cleared: RecorderFlag -> bool)
    requires forall i :: 0 <= i < |states| ==> cleared(states[i])
    ensures Clearing(states, cleared) == []
  {
    FilterDropsAll(states, Kept(cleared));
  }

  /** A list holding no flag to clear is left as it is. */
  lemma ClearingNone(states: seq<RecorderFlag>, cleared: RecorderFlag -> bool)
    requires forall i :: 0 <= i < |states| ==> !cleared(states[i])
    ensures Clearing(states, cleared) == states
  {
    FilterKeepsAll(states, Kept(cleared));
  }

  /** What `toggleState` does, stated by the count of every flag: a stop keeps the
      order of the rest, a start ends the list with its flag. */
  lemma ToggleStateCounts(states: seq<RecorderFlag>, flag: RecorderFlag)
    ensures var r := ToggleState(states, flag);
      flag == MicRecordingStopped || flag == MicRecordingError ==>
      IsSubsequence(r, states) &&
      forall x :: multiset(r)[x] == if x == MicRecording then 0 else multiset(states)[x]
    ensures var r := ToggleState(states, flag);
      flag == TabRecordingStopped || flag == TabRecordingError ==>
      IsSubsequence(r, states) &&
      forall x :: multiset(r)[x] == if x == TabRecording then 0 else multiset(states)[x]
    ensures var r := ToggleState(states, flag);
      flag == MicRecording ==>
      |r| > 0 && r[|r| - 1] == MicRecording &&
      forall x :: multiset(r)[x] == (if ClearedByMicStart(x) then 0 else multiset(states)[x]) + (if x == MicRecording then 1 else 0)
    ensures var r := ToggleState(states, flag);
      flag == TabRecording ==>
      |r| > 0 && r[|r| - 1] == TabRecording &&
      forall x :: multiset(r)[x] == (if ClearedByTabStart(x) then 0 else multiset(states)[x]) + (if x == TabRecording then 1 else 0)
    ensures flag == Idle ==> ToggleState(states, flag) == SafeUpdateState(states, Idle)
  {
    if flag == MicRecordingStopped || flag == MicRecordingError {
      ClearingCounts(states, IsMicFlag);
      assert ToggleState(states, flag) == Clearing(states, IsMicFlag);
    } else if flag == TabRecordingStopped || flag == TabRecordingError {
      ClearingCounts(states, IsTabFlag);
      assert ToggleState(states, flag) == Clearing(states, IsTabFlag);
    } else if flag == MicRecording {
      StartingCounts(states, flag, ClearedByMicStart);
      assert ToggleState(states, flag) == Clearing(states, ClearedByMicStart) + [flag];
    } else if flag == TabRecording {
      StartingCounts(states, flag, ClearedByTabStart);
      assert ToggleState(states, flag) == Clearing(states, ClearedByTabStart) + [flag];
    }
  }

  /** A start branch ends the list with its flag and adds one copy of it to what clearing keeps. */
  lemma StartingCounts(states: seq<RecorderFlag>, flag: RecorderFlag, cleared: RecorderFlag -> bool)
    ensures var r := Clearing(states, cleared) + [flag];
      r[|r| - 1] == flag &&
      forall x :: multiset(r)[x] == (if cleared(x) then 0 else multiset(states)[x]) + (if x == flag then 1 else 0)
  {
    ClearingCounts(states, cleared);
    assert multiset(Clearing(states, cleared) + [flag]) == multiset(Clearing(states, cleared)) + multiset{flag};
  }

  /** The flag a stop or error type removes. */
  predicate IsMicFlag(f: RecorderFlag)
  {
    f == MicRecording
  }

  predicate IsTabFlag(f: RecorderFlag)
  {
    f == TabRecording
  }

  /** `recorderReducer`. An error on the microphone and an `IDLE` action both act as
      `MIC_RECORDING`; `TAB_RECORDING_ERROR` falls to the default case. */
  function RecorderReducer(states: seq<RecorderFlag>, action: RecorderFlag): seq<RecorderFlag>
  {
    match action
    case MicRecording => ToggleState(states, MicRecording)
    case MicRecordingStopped => ToggleState(states, MicRecordingStopped)
    case TabRecording => ToggleState(states, TabRecording)
    case TabRecordingStopped => ToggleState(states, TabRecordingStopped)
    case MicRecordingError => ToggleState(states, MicRecording)
    case Idle => ToggleState(states, MicRecording)
    case TabRecordingError => states
  }

  /** The type `recorderReducer` hands to `toggleState` for `action`. */
  function ToggledBy(action: RecorderFlag): RecorderFlag
  {
    if action == MicRecordingError || action == Idle then MicRecording else action
  }

  /** Every action but `TAB_RECORDING_ERROR` is a toggle. */
  lemma ReducerCounts(states: seq<RecorderFlag>, action: RecorderFlag)
    ensures action == TabRecordingError ==> RecorderReducer(states, action) == states
    ensures action != TabRecordingError ==> RecorderReducer(states, action) == ToggleState(states, ToggledBy(action))
  {
  }

  /** The flags the reducer can ever hold: no stopped or error flag is ever stored. */
  predicate OnlyRecordingFlags(states: seq<RecorderFlag>)
  {
    forall i :: 0 <= i < |states| ==> states[i] in {Idle, MicRecording, TabRecording}
  }

  lemma ReducerKeepsOnlyRecordingFlags(states: seq<RecorderFlag>, action: RecorderFlag)
    requires OnlyRecordingFlags(states)
    ensures OnlyRecordingFlags(RecorderReducer(states, action))
  {
    ReducerCounts(states, action);
    ToggleStateCounts(states, ToggledBy(action));
    var r := RecorderReducer(states, action);
    forall i | 0 <= i < |r| ensures r[i] in {Idle, MicRecording, TabRecording} {
      assert r[i] in multiset(r);
    }
  }

  /** `isMicRecording` and `isTabRecording`. */
  predicate IsMicRecording(states: seq<RecorderFlag>)
  {
    MicRecording in states
  }

  predicate IsTabRecording(states: seq<RecorderFlag>)
  {
    TabRecording in states
  }

  /** Starting a pipeline sets its flag. */
  lemma StartSetsFlag(states: seq<RecorderFlag>)
    ensures IsMicRecording(RecorderReducer(states, MicRecording))
    ensures IsTabRecording(RecorderReducer(states, TabRecording))
  {
    var mic := RecorderReducer(states, MicRecording);
    assert mic[|mic| - 1] == MicRecording;
    var tab := RecorderReducer(states, TabRecording);
    assert tab[|tab| - 1] == TabRecording;
  }

  /** Stopping a pipeline clears every copy of its flag. */
  lemma StopClearsFlag(states: seq<RecorderFlag>)
    ensures !IsMicRecording(RecorderReducer(states, MicRecordingStopped))
    ensures !IsTabRecording(RecorderReducer(states, TabRecordingStopped))
  {
    ToggleStateCounts(states, MicRecordingStopped);
    ToggleStateCounts(states, TabRecordingStopped);
    assert multiset(RecorderReducer(states, MicRecordingStopped))[MicRecording] == 0;
    assert multiset(RecorderReducer(states, TabRecordingStopped))[TabRecording] == 0;
  }

  /** An action on one pipeline leaves the count of the other pipeline's flag alone. */
  lemma PipelinesIndependent(states: seq<RecorderFlag>, action: RecorderFlag)
    ensures action in {MicRecording, MicRecordingStopped, MicRecordingError, Idle} ==>
      multiset(RecorderReducer(states, action))[TabRecording] == multiset(states)[TabRecording]
    ensures action in {TabRecording, TabRecordingStopped, TabRecordingError} ==>
      multiset(RecorderReducer(states, action))[MicRecording] == multiset(states)[MicRecording]
  {
    ReducerCounts(states, action);
    ToggleStateCounts(states, ToggledBy(action));
  }

  /** No action adds `IDLE` back once it is gone. */
  lemma IdleNeverReturns(states: seq<RecorderFlag>, action: RecorderFlag)
    requires Idle !in states
    ensures Idle !in RecorderReducer(states, action)
  {
    ReducerCounts(states, action);
    ToggleStateCounts(states, ToggledBy(action));
    assert multiset(states)[Idle] == 0;
    assert multiset(RecorderReducer(states, action))[Idle] == 0;
  }

  /** A second `MIC_RECORDING` appends a second copy of the flag. */
  lemma DoubleStartDuplicates()
    ensures RecorderReducer(RecorderReducer(InitialState(), MicRecording), MicRecording) == [MicRecording, MicRecording]
  {
    ClearingAll(InitialState(), ClearedByMicStart);
    var once := RecorderReducer(InitialState(), MicRecording);
    assert once == [MicRecording];
    ClearingNone(once, ClearedByMicStart);
  }

  /** The flags after `stopMicRecording()` then `stopTabRecording()`: each stop
      dispatches only when its pipeline is live, and the tab stop also needs its flag. */
  function StopBoth(states: seq<RecorderFlag>, micLive: bool, tabLive: bool): seq<RecorderFlag>
  {
    var afterMic := if micLive then RecorderReducer(states, MicRecordingStopped) else states;
    if tabLive && IsTabRecording(afterMic) then RecorderReducer(afterMic, TabRecordingStopped) else afterMic
  }

  /** A meeting change leaves no live pipeline recording, keeps a pipeline that was not
      live as it was, and touches no other flag. */
  lemma StopBothClears(states: seq<RecorderFlag>, micLive: bool, tabLive: bool)
    ensures micLive ==> !IsMicRecording(StopBoth(states, micLive, tabLive))
    ensures tabLive ==> !IsTabRecording(StopBoth(states, micLive, tabLive))
    ensures !micLive ==> multiset(StopBoth(states, micLive, tabLive))[MicRecording] == multiset(states)[MicRecording]
    ensures !tabLive ==> multiset(StopBoth(states, micLive, tabLive))[TabRecording] == multiset(states)[TabRecording]
    ensures forall x :: x != MicRecording && x != TabRecording ==>
      multiset(StopBoth(states, micLive, tabLive))[x] == multiset(states)[x]
  {
    var afterMic := states;
    if micLive {
      ToggleStateCounts(states, MicRecordingStopped);
      afterMic := RecorderReducer(states, MicRecordingStopped);
    }
    assert forall x :: x != MicRecording ==> multiset(afterMic)[x] == multiset(states)[x];
    assert micLive ==> multiset(afterMic)[MicRecording] == 0;
    var r := afterMic;
    if tabLive && IsTabRecording(afterMic) {
      ToggleStateCounts(afterMic, TabRecordingStopped);
      r := RecorderReducer(afterMic, TabRecordingStopped);
    }
    assert r == StopBoth(states, micLive, tabLive);
    assert forall x :: x != TabRecording ==> multiset(r)[x] == multiset(afterMic)[x];
    assert tabLive ==> multiset(r)[TabRecording] == 0;
  }

  /** The provider: the flag state and both pipelines. */
  class RecorderProvider {
    var state: seq<RecorderFlag>
    const mic: BaseRecorder
    const tab: BaseRecorder
    /** `micRecorder.current != null` and `tabRecorder.current != null`. */
    var hasMicRecorder: bool
    var hasTabRecorder: bool
    /** The `isRecording` value each pipeline's effect last ran with. */
    var micEffectRecording: bool
    var tabEffectRecording: bool

    ghost predicate Valid()
      reads this, mic, tab
    {
      && mic != tab
      && mic.Valid() && tab.Valid()
      && mic.sender == None && tab.sender == Some(TAB_TRANSCRIPTION_ID)
      && OnlyRecordingFlags(state)
    }

    constructor(micId: string, tabId: string)
      ensures Valid()
      ensures state == InitialState() && !hasMicRecorder && !hasTabRecorder
      ensures !micEffectRecording && !tabEffectRecording
      ensures fresh(mic) && fresh(tab) && mic.speechId == micId && tab.speechId == tabId
    {
      state := InitialState();
      mic := new BaseRecorder(None, micId);
      tab := new BaseRecorder(Some(TAB_TRANSCRIPTION_ID), tabId);
      hasMicRecorder, hasTabRecorder := false, false;
      micEffectRecording, tabEffectRecording := false, false;
    }

    /** `dispatch(action)`: the reducer's next state. */
    method Dispatch(action: RecorderFlag)
      requires Valid()
      modifies this`state
      ensures Valid()
      ensures state == RecorderReducer(old(state), action)
    {
      ReducerKeepsOnlyRecordingFlags(state, action);
      state := RecorderReducer(state, action);
    }

    /** `startMicRecording`. When the microphone is refused the awaited promise
        rejects and nothing changes; otherwise the stream and recorder are kept, the
        chunks reset and `MIC_RECORDING` dispatched. */
    method StartMic(granted: bool)
      requires Valid()
      modifies this`state, this`hasMicRecorder, mic`hasStream, mic`headerBuffer, mic`buffers
      ensures Valid()
      ensures !granted ==>
        && state == old(state) && mic.hasStream == old(mic.hasStream) && hasMicRecorder == old(hasMicRecorder)
        && mic.headerBuffer == old(mic.headerBuffer) && mic.buffers == old(mic.buffers)
      ensures granted ==>
        && state == RecorderReducer(old(state), MicRecording)
        && IsMicRecording(state)
        && mic.hasStream && hasMicRecorder
        && mic.headerBuffer.None? && mic.buffers == []
      ensures mic.hasAnalyser == old(mic.hasAnalyser) && mic.speechId == old(mic.speechId)
    {
      if !granted {
        return;
      }
      mic.AttachStream();
      hasMicRecorder := true;
      mic.ResetChunks();
      StartSetsFlag(state);
      Dispatch(MicRecording);
    }

    /** The microphone's `ondataavailable` after the chunk is read: a non-empty chunk
        is buffered, and the first one of header length becomes the header (a shorter
        one makes `extractWavHeader` throw, which the handler catches). */
    method MicChunk(chunk: Bytes)
      requires Valid()
      modifies mic`buffers, mic`headerBuffer
      ensures Valid()
      ensures mic.buffers == old(mic.buffers) + (if |chunk| > 0 then [chunk] else [])
      ensures mic.headerBuffer ==
        if |chunk| > 0 && old(mic.headerBuffer).None? && |chunk| >= HEADER_LENGTH then Some(chunk[..HEADER_LENGTH])
        else old(mic.headerBuffer)
      ensures mic.Counts() == old(mic.Counts()) && mic.requests == old(mic.requests)
      ensures mic.speechId == old(mic.speechId) && mic.hasStream == old(mic.hasStream)
      ensures mic.hasAnalyser == old(mic.hasAnalyser)
    {
      if |chunk| > 0 {
        mic.buffers := mic.buffers + [chunk];
        if mic.headerBuffer.None? {
          var header := ExtractWavHeader(chunk);
          if header.Ok? {
            mic.headerBuffer := Some(header.value);
          }
        }
      }
    }

    /** The tab audio recorder's `ondataavailable`: a non-empty chunk is buffered. */
    method TabChunk(chunk: Bytes)
      requires Valid()
      modifies tab`buffers
      ensures Valid()
      ensures tab.buffers == old(tab.buffers) + (if |chunk| > 0 then [chunk] else [])
      ensures tab.headerBuffer == old(tab.headerBuffer)
      ensures tab.Counts() == old(tab.Counts()) && tab.requests == old(tab.requests)
      ensures tab.speechId == old(tab.speechId) && tab.hasStream == old(tab.hasStream)
      ensures tab.hasAnalyser == old(tab.hasAnalyser)
    {
      if |chunk| > 0 {
        tab.buffers := tab.buffers + [chunk];
      }
    }

    /** `stopMicRecording`: without a recorder or a stream it does nothing; otherwise
        it dispatches `MIC_RECORDING_STOPPED` and resets the chunks. The stream stays
        until the pipeline's effect forgets it. */
    method StopMic()
      requires Valid()
      modifies this`state, mic`headerBuffer, mic`buffers
      ensures Valid()
      ensures !(old(hasMicRecorder) && old(mic.hasStream)) ==>
        state == old(state) && mic.headerBuffer == old(mic.headerBuffer) && mic.buffers == old(mic.buffers)
      ensures old(hasMicRecorder) && old(mic.hasStream) ==>
        && state == RecorderReducer(old(state), MicRecordingStopped)
        && !IsMicRecording(state)
        && multiset(state)[TabRecording] == multiset(old(state))[TabRecording]
        && mic.headerBuffer.None? && mic.buffers == []
      ensures hasMicRecorder == old(hasMicRecorder) && hasTabRecorder == old(hasTabRecorder)
      ensures mic.hasStream == old(mic.hasStream) && mic.speechId == old(mic.speechId)
      ensures mic.hasAnalyser == old(mic.hasAnalyser)
      ensures mic.Counts() == old(mic.Counts()) && mic.requests == old(mic.requests)
      ensures micEffectRecording == old(micEffectRecording) && tabEffectRecording == old(tabEffectRecording)
    {
      if !hasMicRecorder || !mic.hasStream {
        return;
      }
      StopClearsFlag(state);
      PipelinesIndependent(state, MicRecordingStopped);
      Dispatch(MicRecordingStopped);
      mic.ResetChunks();
    }

    /** `startTabRecording`. The callback is memoised on the speech-id ref alone, so
        the `state` it reads is the one of the first render, `["IDLE"]`, and its
        "already recording" test never stops it. Without a speech id, or when the
        display capture is refused, nothing changes. */
    method StartTab(granted: bool)
      requires Valid()
      modifies this`state, this`hasTabRecorder, tab`hasStream
      ensures Valid()
      ensures !(granted && tab.speechId != "") ==>
        state == old(state) && tab.hasStream == old(tab.hasStream) && hasTabRecorder == old(hasTabRecorder)
      ensures granted && tab.speechId != "" ==>
        && state == RecorderReducer(old(state), TabRecording)
        && IsTabRecording(state)
        && tab.hasStream && hasTabRecorder
      ensures hasMicRecorder == old(hasMicRecorder)
      ensures tab.headerBuffer == old(tab.headerBuffer) && tab.buffers == old(tab.buffers)
      ensures tab.speechId == old(tab.speechId) && tab.hasAnalyser == old(tab.hasAnalyser)
      ensures tab.Counts() == old(tab.Counts()) && tab.requests == old(tab.requests)
      ensures micEffectRecording == old(micEffectRecording) && tabEffectRecording == old(tabEffectRecording)
    {
      if tab.speechId == "" {
        return;
      }
      var isRecording := IsTabRecording(InitialState());
      if !isRecording && granted {
        tab.AttachStream();
        hasTabRecorder := true;
        StartSetsFlag(state);
        Dispatch(TabRecording);
      }
    }

    /** `stopTabRecording`: it needs the tab flag, a recorder and a stream. */
    method StopTab()
      requires Valid()
      modifies this`state, tab`headerBuffer, tab`buffers
      ensures Valid()
      ensures !(IsTabRecording(old(state)) && old(hasTabRecorder) && old(tab.hasStream)) ==>
        state == old(state) && tab.headerBuffer == old(tab.headerBuffer) && tab.buffers == old(tab.buffers)
      ensures IsTabRecording(old(state)) && old(hasTabRecorder) && old(tab.hasStream) ==>
        && state == RecorderReducer(old(state), TabRecordingStopped)
        && !IsTabRecording(state)
        && multiset(state)[MicRecording] == multiset(old(state))[MicRecording]
        && tab.headerBuffer.None? && tab.buffers == []
      ensures hasMicRecorder == old(hasMicRecorder) && hasTabRecorder == old(hasTabRecorder)
      ensures tab.hasStream == old(tab.hasStream) && tab.speechId == old(tab.speechId)
      ensures tab.hasAnalyser == old(tab.hasAnalyser)
      ensures tab.Counts() == old(tab.Counts()) && tab.requests == old(tab.requests)
      ensures micEffectRecording == old(micEffectRecording) && tabEffectRecording == old(tabEffectRecording)
    {
      if !IsTabRecording(state) || !hasTabRecorder || !tab.hasStream {
        return;
      }
      StopClearsFlag(state);
      PipelinesIndependent(state, TabRecordingStopped);
      Dispatch(TabRecordingStopped);
      tab.ResetChunks();
    }

    /** The effect on the selected meeting's id: `stopMicRecording()` then
        `stopTabRecording()`, each with its own guard; a pipeline that stops has its
        chunks reset, and nothing else changes. */
    method MeetingChanged()
      requires Valid()
      modifies this`state, mic`headerBuffer, mic`buffers, tab`headerBuffer, tab`buffers
      ensures Valid()
      ensures state == StopBoth(old(state), old(hasMicRecorder) && old(mic.hasStream), old(hasTabRecorder) && old(tab.hasStream))
      ensures old(hasMicRecorder) && old(mic.hasStream) ==> mic.headerBuffer.None? && mic.buffers == []
      ensures !(old(hasMicRecorder) && old(mic.hasStream)) ==>
        mic.headerBuffer == old(mic.headerBuffer) && mic.buffers == old(mic.buffers)
      ensures IsTabRecording(old(state)) && old(hasTabRecorder) && old(tab.hasStream) ==>
        tab.headerBuffer.None? && tab.buffers == []
      ensures !(IsTabRecording(old(state)) && old(hasTabRecorder) && old(tab.hasStream)) ==>
        tab.headerBuffer == old(tab.headerBuffer) && tab.buffers == old(tab.buffers)
      ensures hasMicRecorder == old(hasMicRecorder) && hasTabRecorder == old(hasTabRecorder)
      ensures micEffectRecording == old(micEffectRecording) && tabEffectRecording == old(tabEffectRecording)
      ensures mic.hasStream == old(mic.hasStream) && mic.hasAnalyser == old(mic.hasAnalyser) && mic.speechId == old(mic.speechId)
      ensures tab.hasStream == old(tab.hasStream) && tab.hasAnalyser == old(tab.hasAnalyser) && tab.speechId == old(tab.speechId)
      ensures mic.Counts() == old(mic.Counts()) && tab.Counts() == old(tab.Counts())
      ensures mic.requests == old(mic.requests) && tab.requests == old(tab.requests)
    {
      StopMic();
      assert IsTabRecording(state) == IsTabRecording(old(state));
      StopTab();
    }

    /** The two pipelines' recording effects after a render: each runs when its
        `isRecording` value changed since it last ran, with a fresh speech id for the
        stop branch. */
    method CommitEffects(micFreshId: string, tabFreshId: string) returns (micTicking: bool, tabTicking: bool)
      requires Valid()
      requires micFreshId !in mic.usedIds && tabFreshId !in tab.usedIds
      modifies mic, tab, this`micEffectRecording, this`tabEffectRecording
      ensures Valid()
      ensures micEffectRecording == IsMicRecording(state) && tabEffectRecording == IsTabRecording(state)
      ensures micTicking <==> IsMicRecording(state) && !old(micEffectRecording) && old(mic.hasStream)
      ensures tabTicking <==> IsTabRecording(state) && !old(tabEffectRecording) && old(tab.hasStream)
      ensures micTicking ==> mic.hasAnalyser && mic.hasStream
      ensures tabTicking ==> tab.hasAnalyser && tab.hasStream
      ensures !(IsMicRecording(state) != old(micEffectRecording) && old(mic.hasStream) && !IsMicRecording(state)) ==>
        && mic.buffers == old(mic.buffers) && mic.headerBuffer == old(mic.headerBuffer)
        && mic.hasStream == old(mic.hasStream) && mic.speechId == old(mic.speechId)
      ensures !(IsTabRecording(state) != old(tabEffectRecording) && old(tab.hasStream) && !IsTabRecording(state)) ==>
        && tab.buffers == old(tab.buffers) && tab.headerBuffer == old(tab.headerBuffer)
        && tab.hasStream == old(tab.hasStream) && tab.speechId == old(tab.speechId)
      ensures IsMicRecording(state) == old(micEffectRecording) ==> mic.hasAnalyser == old(mic.hasAnalyser)
      ensures IsTabRecording(state) == old(tabEffectRecording) ==> tab.hasAnalyser == old(tab.hasAnalyser)
      ensures mic.Counts() == old(mic.Counts()) && tab.Counts() == old(tab.Counts())
      ensures IsMicRecording(state) != old(micEffectRecording) && old(mic.hasStream) && !IsMicRecording(state) ==>
        !mic.hasStream && !mic.hasAnalyser && mic.buffers == [] && mic.headerBuffer.None? && mic.speechId == micFreshId
      ensures IsTabRecording(state) != old(tabEffectRecording) && old(tab.hasStream) && !IsTabRecording(state) ==>
        !tab.hasStream && !tab.hasAnalyser && tab.buffers == [] && tab.headerBuffer.None? && tab.speechId == tabFreshId
      ensures mic.requests == old(mic.requests) && tab.requests == old(tab.requests)
    {
      micTicking, tabTicking := false, false;
      var micOn := IsMicRecording(state);
      if micOn != micEffectRecording {
        micTicking := mic.RecordingChanged(micOn, micFreshId);
        micEffectRecording := micOn;
      }
      var tabOn := IsTabRecording(state);
      if tabOn != tabEffectRecording {
        tabTicking := tab.RecordingChanged(tabOn, tabFreshId);
        tabEffectRecording := tabOn;
      }
    }
  }
}

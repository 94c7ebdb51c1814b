# meet-copilot client core in Dafny

This project models the client-side audio pipeline of meet-copilot, a meeting assistant that records the
microphone and a shared browser tab, cuts the audio into utterances, sends each utterance for transcription
and shows the transcripts in order of arrival. It also models the small status-list reducers that track what
the app is loading. The models and their proofs cover:

- **Transcription queue** (`transcription_queue.dfy`, module `Transcription`). A class with the queue's
  `jobs` and `results` lists and a log of `onSpeechReceived` calls. A job's promise settling is an explicit
  `Settle(index, outcome)` event. `ProcessResults` is the stable timestamp sort plus the drain loop, proved
  against a pure reference: the sorted settled results, filtered to those that call back.
- **Voice-activity tick and segment emitter** (`recorder_shared.dfy`, module `RecorderShared`).
  - `NextTick` is the pure counter state machine of `detectSound`, with theorems about runs of ticks.
  - The class `BaseRecorder` holds the recorder hook's refs: counters, header cache, chunk buffers, speech id,
    and a log of emitted transcription requests.
  - It carries `emitAudioChunk`, the `detectSound` tick and the recording effect.
  - The analyser's frequency data is reduced to one boolean per tick, "some bin is non-zero".
- **Byte and string helpers** (`utils.dfy`, module `Utils`). `concatArrayBuffers` is an imperative copy into
  an array, proved equal to the flattening of the views. `extractWavHeader` takes the canonical 44-byte
  RIFF/WAVE header, as laid out in chapter 3 of the Microsoft/IBM Multimedia Programming Interface and Data
  Specifications 1.0. `getCookie`, the status message and the meeting link are the other helpers.
- **WAV header decoder** (`wav_length.dfy`, module `WavLength`). Fixed-offset little-endian fields and the
  RIFF/WAVE magic check, with an encoder and a decode-after-encode round trip.
- **Recorder reducer and provider** (`recorder_context.dfy`, module `RecorderContext`). The recording-flag
  reducer, and a class for the provider holding the flag list and the two recorders. Its methods are
  starting and stopping each pipeline, the `ondataavailable` chunk handlers, the meeting-change effect and
  the per-render recording effects.
- **Status-list reducers** (`reducer_helpers.dfy`, `app_context.dfy`, `supabase_context.dfy`).
  `safeUpdateState`, `removeLoadingState`, the app's `setupReducer` with its health toggle, the
  `deleteMeeting` filter and the health effect, and the Supabase reducer.
- **Support modules.** `wrappers.dfy` has `Option` and `Result`. `lists.dfy` has an order-keeping filter
  and subsequences. `js_string.dfy` has `indexOf`, `includes` and `split` as JavaScript defines them.

Behaviour the code has that a reader might not expect; the model follows the code in each case:

- The queue does not hold back a later result behind an earlier pending job. Every write is followed by a
  pass, and the drain loop steps over unresolved slots and never stops at them. So callbacks follow
  settlement order across passes, and timestamp order only within one pass (`OutOfOrderDelivery`).
- A forced flush happens on the 1002nd consecutive sound tick, not the 1001st. The check `> 1000` runs
  before the increment (`ForcedFlushTiming`).
- The silence counter starts at 88, so the first utterance of a session closes after only two silent ticks
  (`FirstUtteranceClosesEarly`).
- The emitter's `!data.buffer` guard never trips, because an empty `ArrayBuffer` is truthy. The credits
  guard accepts any non-zero balance, negative included, while the health effect asks for a positive one.
- `startTabRecording` is memoised on the speech-id ref only. So the flag list it reads is always the
  initial `["IDLE"]`, and its "already recording" check never blocks.
- `MIC_RECORDING_ERROR` and `IDLE` actions start the microphone flag, and `TAB_RECORDING_ERROR` is ignored.
- A repeated start stores a second `MIC_RECORDING`, and stopped or error flags are never stored
  (`DoubleStartDuplicates`, `ReducerKeepsOnlyRecordingFlags`).
- The Supabase `FETCHING_*` actions append without checking, so the initial state plus `FETCHING_USER` holds
  the marker twice (`InitialFetchDuplicates`).
- In `removeLoadingState` the `||` always picks its non-empty left operand, so the `_ERROR` pattern is never
  used. An error action such as `USER_ERROR` removes the `FETCHING_USER` marker; it does not remove an
  earlier `USER_ERROR` entry.
- In `UPDATE_MEETINGS` the meetings list is always an array, so the `[payload]` fallback is never taken.
- Meeting ids are strings here, as the types declare. Ids IndexedDB assigns as numbers would make
  `deleteMeeting`'s strict comparison keep every meeting; the model does not represent that.

## Model

| member | source | states |
|---|---|---|
| Transcription.SettledResult | app/contexts/recorder/transcription-queue.ts:26-33 | A fulfilled job stores the backend's result. A rejected one stores a result with the job's id, timestamp and sender, status "failed" and no transcript. |
| Transcription.RejectedIsSilent | app/contexts/recorder/transcription-queue.ts:30-33 | The result stored for a rejected job never triggers `onSpeechReceived`. |
| Transcription.CallbacksOfOne | app/contexts/recorder/transcription-queue.ts:58-61 | A drained result calls back with (transcript, sender) exactly when it is "completed" with a non-empty transcript, and otherwise calls back nothing. |
| Transcription.CallbacksAppend | app/contexts/recorder/transcription-queue.ts:55-66 | Draining two lists one after the other issues the callbacks of the first, then those of the second. |
| Transcription.FiringIsFilter | app/contexts/recorder/transcription-queue.ts:58-61 | The results that call back are exactly `Array.prototype.filter` of the drained list by the callback test. |
| Transcription.FiringSelects | app/contexts/recorder/transcription-queue.ts:55-61 | The results that call back are drawn from the drained list in its order. Every firing result is kept as often as it occurs, and a result that does not fire never calls back. |
| Transcription.InsertPermutes | app/contexts/recorder/transcription-queue.ts:50-53 | One insertion step of the sort adds exactly the inserted result and keeps all others. |
| Transcription.InsertSorted | app/contexts/recorder/transcription-queue.ts:50-53 | Inserting into a timestamp-sorted list keeps it sorted. |
| Transcription.InsertWithTimestamp | app/contexts/recorder/transcription-queue.ts:50-53 | Among the results carrying any one timestamp, insertion puts the new result in front of those already placed and keeps their order. The sort inserts from the back of its input, so this keeps equal timestamps in input order. |
| Transcription.SortByTimestampSorts | app/contexts/recorder/transcription-queue.ts:50-53 | The sort orders results by non-decreasing timestamp and is a permutation of its input. |
| Transcription.SortByTimestampStable | app/contexts/recorder/transcription-queue.ts:50-53 | Results with equal timestamps keep their relative order, as `Array.prototype.sort` guarantees. |
| Transcription.FiringSorted | app/contexts/recorder/transcription-queue.ts:50-61 | Within one pass the callbacks come in non-decreasing timestamp order. |
| Transcription.SortSlots | app/contexts/recorder/transcription-queue.ts:50-53 | Sorting the slots stable-sorts the settled results, keeps the number of unresolved slots, and moves every unresolved slot after every settled one. |
| Transcription.SetSlot | app/contexts/recorder/transcription-queue.ts:22-27 | Writing at an index past the end pads the list with unresolved slots; every other slot is unchanged. |
| Transcription.TranscriptionQueue.constructor | app/contexts/recorder/transcription-queue.ts:11-17 | A new queue has no jobs, no results and has delivered nothing. |
| Transcription.TranscriptionQueue.AddJob | app/contexts/recorder/transcription-queue.ts:19-37 | The job is appended, and only appended. After the pass every slot is unresolved, one per job, and no callback happens. |
| Transcription.TranscriptionQueue.Settle | app/contexts/recorder/transcription-queue.ts:25-34 | Settling the job at `index` delivers that job's own callback immediately, if it fires, whatever other jobs are pending. The jobs list is unchanged and the results list loses the drained slot. |
| Transcription.TranscriptionQueue.ProcessResults | app/contexts/recorder/transcription-queue.ts:43-67 | A pass leaves only unresolved slots, as many as before. It delivers exactly the callbacks of the settled results in stable timestamp order. A list with no settled entry is left as it is. |
| Transcription.TranscriptionQueue.DrainSettled | app/contexts/recorder/transcription-queue.ts:55-66 | The drain loop removes every settled entry wherever it is, keeps every unresolved slot, and calls back for the settled entries in list order. |
| Transcription.TranscriptionQueue.OneSettled | app/contexts/recorder/transcription-queue.ts:26-28 | After one write into an all-unresolved list, the following pass sees exactly that one settled result. |
| Transcription.OutOfOrderDelivery | app/contexts/recorder/transcription-queue.ts:19-67 | Jobs A (earlier) and B, with B settling first, deliver B's transcript before A's. |
| Transcription.FailureDoesNotBlock | app/contexts/recorder/transcription-queue.ts:19-67 | A failing earlier job delivers nothing and does not hold back the later jobs' callbacks. |
| Utils.FlattenAppend | app/lib/utils.ts:41-57 | Concatenating two lists of views gives the concatenation of their bytes and lengths. |
| Utils.FlattenLength | app/lib/utils.ts:42-46 | The first loop's total length is the length of the concatenated bytes. |
| Utils.FlattenSkipsNull | app/lib/utils.ts:44 | A missing view contributes nothing. |
| Utils.FlattenAt | app/lib/utils.ts:50-54 | Byte `k` of the result is the matching byte of the view that covers position `k`. |
| Utils.Set | app/lib/utils.ts:52 | `Uint8Array.set` copies the source at the offset and leaves the bytes before and after it unchanged. |
| Utils.ConcatArrayBuffers | app/lib/utils.ts:41-57 | The two loops produce exactly the bytes of the non-null views in order, of the total length. |
| Utils.ExtractWavHeader | app/lib/utils.ts:59-67 | It fails exactly when the buffer is shorter than 44 bytes; otherwise it returns the buffer's first 44 bytes. |
| Utils.ExtractWavHeaderIdempotent | app/lib/utils.ts:59-67 | The header of a header is the header itself. |
| Utils.GetCookie | app/lib/utils.ts:23-28 | The result is present exactly when the marker `; name=` occurs exactly once in `"; " + cookie`. It is then the text after that occurrence up to the first `;`, and contains no `;`. |
| Utils.GetSystemStatusMessage | app/lib/utils.ts:79-81 | The healthy message is returned exactly when the system is healthy, and the settings hint otherwise. |
| Utils.GetMeetingLinkForScreenType | app/lib/utils.ts:34-39 | Both screen types get the same meeting path. |
| JsString.IndexOf | app/lib/utils.ts:25 | A position it returns is an occurrence of the separator. |
| JsString.IndexOfLeftmost | app/lib/utils.ts:25 | The returned position is the leftmost occurrence, and none is returned only when the separator occurs nowhere. |
| JsString.SplitInTwo | app/lib/utils.ts:25-26 | `split` gives two pieces exactly when the separator occurs once, and the second piece is what follows it. |
| JsString.FirstPiece | app/lib/utils.ts:26 | The first piece of a split on one character is a prefix without that character, ended by it or by the end of the text. |
| WavLength.Uint16 | app/helpers/wav-length.ts:26-27 | A little-endian 16-bit field is below 2^16. |
| WavLength.Uint32 | app/helpers/wav-length.ts:22 | A little-endian 32-bit field is below 2^32. |
| WavLength.Tag | app/helpers/wav-length.ts:46-52 | The string has one character per byte, whose code is that byte. |
| WavLength.GetString | app/helpers/wav-length.ts:46-52 | The loop fails with a range error exactly when it reads past the end of the buffer; otherwise it returns one character per byte. |
| WavLength.GetWavHeader | app/helpers/wav-length.ts:17-38 | Decoding fails with a range error exactly on buffers shorter than 44 bytes. It succeeds exactly when the RIFF and WAVE tags are present. |
| WavLength.HeaderOnlyReadsPrefix | app/helpers/wav-length.ts:20-38 | Decoding a buffer and decoding the 44 bytes `extractWavHeader` cuts from it give the same result. |
| WavLength.DecodeEncode | app/helpers/wav-length.ts:20-38 | Decoding an encoded header returns it when it carries RIFF/WAVE, and fails with the format error otherwise. |
| WavLength.EncodeWavHeader | app/helpers/wav-length.ts:20-34 | A header with in-range fields encodes to exactly 44 bytes. |
| ReducerHelpers.SafeUpdateState | app/helpers/reducer-helpers.ts:1-7 | The new state is present afterwards. The list is extended by at most that one entry at the end, and is unchanged exactly when the state was already present. |
| ReducerHelpers.SafeUpdateStateIdempotent | app/helpers/reducer-helpers.ts:1-7 | Adding a state twice is the same as adding it once. |
| ReducerHelpers.SafeUpdateStateKeepsNoDuplicates | app/helpers/reducer-helpers.ts:1-7 | A list without duplicates stays without duplicates. |
| ReducerHelpers.LoadingMarker | app/helpers/reducer-helpers.ts:13-16 | The pattern removed is `FETCHING_` plus the part of the new state before its first `_`; the `_ERROR` alternative is never chosen. |
| ReducerHelpers.LoadingMarkerOfKind | app/helpers/reducer-helpers.ts:13-16 | For a kind without `_`, both `KIND` and `KIND_ERROR` select the marker `FETCHING_KIND`. |
| ReducerHelpers.RemoveLoadingState | app/helpers/reducer-helpers.ts:9-18 | The result is an order-kept sub-list. No entry in it includes the marker, and every entry not including it keeps its number of occurrences. |
| ReducerHelpers.RemoveLoadingStateIdempotent | app/helpers/reducer-helpers.ts:9-18 | Removing the loading state twice removes nothing more. |
| ReducerHelpers.RemoveLoadingStateKeepsNonLoading | app/helpers/reducer-helpers.ts:9-18 | An entry that is not a loading marker survives. |
| ReducerHelpers.FilterKeepsNoDuplicates | app/helpers/reducer-helpers.ts:14-17 | Filtering a list without duplicates gives one without duplicates. |
| ReducerHelpers.MarkSettledFacts | app/helpers/reducer-helpers.ts:1-18 | Removing a kind's loading marker and then adding a shorter settled state has four consequences: the settled state is present, no marker of that kind remains, every other entry keeps its count, and a list without duplicates stays so. |
| Lists.Filter | app/helpers/reducer-helpers.ts:14-17 | The filtered list holds only elements satisfying the predicate, and holds every such element. |
| Lists.FilterIsSubsequence | app/helpers/reducer-helpers.ts:14-17 | `Array.prototype.filter` keeps the order of the elements it keeps. |
| Lists.FilterCount | app/helpers/reducer-helpers.ts:14-17 | A kept value keeps its number of occurrences; a dropped one has none. |
| Lists.FilterIdempotent | app/helpers/reducer-helpers.ts:14-17 | Filtering twice by the same predicate is filtering once. |
| Lists.FilterAppend | app/helpers/reducer-helpers.ts:14-17 | Filtering distributes over concatenation. |
| RecorderShared.NextTick | app/contexts/recorder/shared.ts:110-152 | A tick never flushes twice. Counters within the reachable bounds stay within them, and after any flush the speech counter is at most 1. |
| RecorderShared.RunAppend | app/contexts/recorder/shared.ts:103-161 | Ticks compose: a run split in two ends in the same counters and flushes the same number of times. |
| RecorderShared.SoundRun | app/contexts/recorder/shared.ts:126-136 | Sound ticks never flush below the forced limit and add one to speech each. Silence is reset once speech exceeded 15 before a tick, and untouched while it never did. |
| RecorderShared.QuietRun | app/contexts/recorder/shared.ts:137-152 | Silence after at most 15 sound ticks never emits. |
| RecorderShared.SilenceAfterSpeech | app/contexts/recorder/shared.ts:137-152 | After an utterance, a run of silent ticks emits exactly once when silence passes 89, and not before. |
| RecorderShared.NoFlushOnNoise | app/contexts/recorder/shared.ts:126-152 | A burst of at most 15 sound ticks followed by any silence never emits. |
| RecorderShared.UtteranceFlush | app/contexts/recorder/shared.ts:126-152 | Between 17 and 1000 sound ticks followed by `m` silent ones emit exactly once, iff `m` exceeds 89. |
| RecorderShared.ForcedFlushTiming | app/contexts/recorder/shared.ts:110-118 | Continuous sound forces no emit in 1001 ticks and exactly one in 1002. |
| RecorderShared.FirstUtteranceClosesEarly | app/contexts/recorder/shared.ts:39-40 | With the initial silence of 88, 16 sound ticks then 2 silent ticks already emit. |
| RecorderShared.Frame | app/contexts/recorder/shared.ts:65-72 | Without a cached header, a segment under 44 bytes throws. Otherwise the segment is sent as is and its first 44 bytes become the header. With a cached header, it is prepended and kept. The payload always starts with the header. |
| RecorderShared.BaseRecorder.constructor | app/contexts/recorder/shared.ts:36-48 | A recorder starts with speech 0, silence 88, no header, no chunks, no stream and no requests. |
| RecorderShared.BaseRecorder.ResetChunks | app/contexts/recorder/index.client.tsx:141-144 | The header and chunks are cleared and nothing else changes. |
| RecorderShared.BaseRecorder.EmitAudioChunk | app/contexts/recorder/shared.ts:55-101 | The guard fails with no selected meeting, no user, or neither an API key nor non-zero credits; then nothing happens. Otherwise it throws exactly when the framing does. On success one request is appended, with the session's speech id, the meeting, the sender or user id, and a buffer starting with the cached header. |
| RecorderShared.BaseRecorder.DetectSound | app/contexts/recorder/shared.ts:103-161 | Without an analyser nothing changes. Otherwise the counters follow `NextTick` and the buffers concatenated at tick start are emitted on a flush. Buffers are emptied on a flush and the next frame is requested, except when the emit throws, which leaves the state as the source leaves it. |
| RecorderShared.BaseRecorder.RecordingChanged | app/contexts/recorder/shared.ts:163-195 | With no stream nothing happens. Recording attaches an analyser and schedules a tick. Stopping drops analyser and stream, clears header and chunks, and starts a new session with a fresh speech id; the counters are left as they are. |
| RecorderContext.ToggleStateCounts | app/contexts/recorder/index.client.tsx:51-84 | A stopped or error flag removes its pipeline's recording flag and keeps everything else in order. A start removes IDLE and its own stopped and error flags and appends one recording flag even if one is present. IDLE is added as `safeUpdateState` adds it. |
| RecorderContext.ReducerKeepsOnlyRecordingFlags | app/contexts/recorder/index.client.tsx:86-105 | From a list of IDLE and recording flags, every action keeps it so; stopped and error flags are never stored. |
| RecorderContext.StartSetsFlag | app/contexts/recorder/index.client.tsx:87-94 | After a start action its pipeline is recording. |
| RecorderContext.StopClearsFlag | app/contexts/recorder/index.client.tsx:89-98 | After a stop action its pipeline is not recording. |
| RecorderContext.PipelinesIndependent | app/contexts/recorder/index.client.tsx:86-105 | Microphone actions leave the tab flag's count alone and tab actions the microphone's. |
| RecorderContext.IdleNeverReturns | app/contexts/recorder/index.client.tsx:86-105 | Once IDLE has left the list no action brings it back, because the IDLE action starts the microphone instead. |
| RecorderContext.DoubleStartDuplicates | app/contexts/recorder/index.client.tsx:61-70 | Two microphone starts from the initial state leave two `MIC_RECORDING` entries. |
| RecorderContext.RecorderProvider.constructor | app/contexts/recorder/index.client.tsx:113-130 | The provider starts with `["IDLE"]`, no recorders, and two distinct recorders, the tab one sending as the tab transcription id. |
| RecorderContext.RecorderProvider.Dispatch | app/contexts/recorder/index.client.tsx:115 | Dispatch replaces the flag list by the reducer's result. |
| RecorderContext.RecorderProvider.StartMic | app/contexts/recorder/index.client.tsx:132-172 | When the permission is granted, the stream and recorder are kept, the chunks reset and the microphone marked recording. Otherwise the flags, stream, recorder and chunks are unchanged. The analyser and speech id are never touched. |
| RecorderContext.RecorderProvider.MicChunk | app/contexts/recorder/index.client.tsx:146-168 | A non-empty chunk is appended. The header is taken from it only when none is cached and the chunk holds 44 bytes; a shorter one leaves the header unset. The counters, stream, analyser, speech id and requests are unchanged. |
| RecorderContext.RecorderProvider.TabChunk | app/contexts/recorder/index.client.tsx:207-215 | A non-empty chunk is appended and the tab header is never set here. The counters, stream, analyser, speech id and requests are unchanged. |
| RecorderContext.RecorderProvider.StopMic | app/contexts/recorder/index.client.tsx:174-190 | With a recorder and a stream, the microphone flag is cleared, the tab flag kept, and the chunks reset; otherwise the flags and chunks are unchanged. The stream, analyser, speech id, counters, requests and recorder refs are never touched. |
| RecorderContext.RecorderProvider.StartTab | app/contexts/recorder/index.client.tsx:192-243 | With a speech id and a granted capture, the tab is marked recording even when it already was, because the check reads the initial flag list. Otherwise the flags, stream and recorder ref are unchanged. The chunks, analyser, speech id, counters and requests are never touched. |
| RecorderContext.RecorderProvider.StopTab | app/contexts/recorder/index.client.tsx:244-261 | With the tab flag, a recorder and a stream, the tab flag is cleared, the microphone flag kept, and the chunks reset; otherwise the flags and chunks are unchanged. The stream, analyser, speech id, counters, requests and recorder refs are never touched. |
| RecorderContext.RecorderProvider.MeetingChanged | app/contexts/recorder/index.client.tsx:263-266 | The flags become the result of the microphone stop and then the tab stop, each under its own guard. A pipeline that stops has its chunks reset and the other keeps them. Streams, analysers, speech ids, counters, requests, recorder refs and effect flags are unchanged. |
| RecorderContext.StopBothClears | app/contexts/recorder/index.client.tsx:263-266 | After a meeting change no live pipeline is recording. A pipeline that was not live keeps its flag count, and IDLE and the other flags keep theirs. |
| RecorderContext.RecorderProvider.CommitEffects | app/contexts/recorder/index.client.tsx:119-130 | Each recorder's effect runs only when its recording flag changed. A tick is scheduled exactly when a pipeline has just started recording and has a stream; it then has an analyser. A pipeline with a stream that just stopped loses its stream and analyser, and gets empty chunks and a fresh speech id. Otherwise its chunks, stream and speech id are unchanged, and an effect that does not run keeps the analyser. Counters and requests are never touched. |
| AppContext.ToggleCurrentStateMeaning | app/contexts/app-context/index.tsx:88-103 | HEALTHY is added, once, when healthy. When unhealthy it is removed with everything else kept in order. |
| AppContext.ToggleCurrentStateIdempotent | app/contexts/app-context/index.tsx:88-103 | Toggling twice to the same health is toggling once. |
| AppContext.FetchingIdempotent | app/contexts/app-context/index.tsx:111-117 | A repeated loading action changes nothing more. |
| AppContext.SettlingStatuses | app/contexts/app-context/index.tsx:118-165 | A fetched or error action stores its settled state and removes every loading marker of its kind. Every other status keeps its count, and a status list without duplicates stays so. |
| AppContext.SettlingData | app/contexts/app-context/index.tsx:118-165 | A fetched action replaces exactly its own data field. An error action sets only the status message. |
| AppContext.SetupReducerKeepsNoDuplicates | app/contexts/app-context/index.tsx:105-194 | No action of the app reducer introduces a duplicate status. |
| AppContext.UpdateMeetingOnlyTouchesMatches | app/contexts/app-context/index.tsx:185-191 | Updating a meeting keeps the list's length, ids and order, replaces only meetings with the same id, and touches nothing else. |
| AppContext.RemainingMeetings | app/contexts/app-context/index.tsx:511-513 | Deleting keeps, in order and with their counts, exactly the meetings whose id differs. |
| AppContext.RemainingMeetingsIdempotent | app/contexts/app-context/index.tsx:511-513 | Deleting the same id twice removes nothing more. |
| AppContext.HealthEffect | app/contexts/app-context/index.tsx:376-391 | After the health effect the status list holds HEALTHY exactly when there is an API key or a positive credit balance, and nothing else changes. |
| SupabaseContext.FetchingAppends | app/contexts/supabase-context/index.tsx:53-59 | A loading action appends its marker unconditionally, one more occurrence each time, and changes nothing else. |
| SupabaseContext.InitialFetchDuplicates | app/contexts/supabase-context/index.tsx:38-59 | The initial list plus `FETCHING_USER` holds that marker twice. |
| SupabaseContext.SettlingStatuses | app/contexts/supabase-context/index.tsx:61-97 | A fetched or error action stores its settled state and removes every loading marker of its kind. Every other status keeps its count, and no duplicates appear where there were none. |
| SupabaseContext.SettlingData | app/contexts/supabase-context/index.tsx:61-99 | Fetched actions replace their own field. Errors change only the status list, and unknown actions change nothing. |
| SupabaseContext.FetchThenSettle | app/contexts/supabase-context/index.tsx:53-69 | Loading then fetching the user leaves no `FETCHING_USER`, records `USER_FETCHED` and stores the user. |

## Left out

- Media capture, `MediaRecorder`, `AudioContext` and the analyser's FFT are browser APIs. A tick takes one boolean, "some frequency bin is non-zero", and `MIN_DECIBELS` only configures the analyser.
- `fetchTranscription`, the network, Supabase, IndexedDB, PayPal, Notion and Google calls are I/O. A transcription promise becomes an explicit `Settle` event, and an emitted job is logged as a request instead of being queued.
- The hook builds a new `TranscriptionQueue` on every render (app/contexts/recorder/shared.ts:50). But `emitAudioChunk` is memoised by `useCallback` on the API key, user id, meeting id, credits and sender (shared.ts:93-100), which leave out `addTranscriptionJob`. `detectSound` is memoised on `emitAudioChunk`. So every job emitted between two changes of those values goes to the one queue captured at the last change. The model therefore treats the queue as one long-lived object, and does not model the switch to a new queue when one of those values changes.
- Promise scheduling and `FileReader` callbacks are asynchronous. Each callback is modelled as running to completion at the point it is called, and `onSpeechReceived` is assumed not to throw.
- `requestAnimationFrame` and effect re-runs caused by a new `detectSound` identity are scheduling. A tick reports whether it asked for the next frame, and the effect is modelled once per change of the recording flag.
- Timestamps and dates are modelled as integer milliseconds: ISO strings from one clock compare as their millisecond values, and the settings' dates are dropped.
- `getWavDuration`'s division into a floating-point duration is left out; only the header decoding and validation are modelled.
- `readableTimestamp`, `generateUUIDv2`, `setClientOnlyCookie` and `removeClientOnlyCookie` format dates, draw random ids or write `document.cookie`. Fresh speech ids are parameters instead.
- The UI, toasts, routing and the remaining providers are rendering glue.
- AppContext.SettlingData: an error action's payload is spread into the state in the source; the model carries only its `systemStatusMessage` field.
- JsString.IndexOf: positions count Unicode scalar values rather than UTF-16 code units, so for characters outside the Basic Multilingual Plane they differ from JavaScript's. The pieces `split` returns, which is all the cookie lookup uses, are the same.
- RecorderContext.RecorderProvider.StartTab: the webm video recorder created next to the audio recorder is not modelled, because it produces no chunks the pipeline uses.

# Audio playback pipeline of the voice-chat avatar, in Dafny

This project models the audio core of `client/src/avatar.ts`. The browser
client gets the agent's speech as base64 chunks of 16 kHz little-endian
signed 16-bit PCM. It decodes each chunk into an AudioBuffer and appends it
to `audioQueue`. It plays the buffers one after another through an analyser
node, and it sums the analyser's byte frequency data every animation frame to
drive the particle avatar.

The model has five parts:

- `Pcm` (pcm.dfy) is the decoder. `DecodePcm16` follows the two index loops
  of `queueAudioBufferFromBase64` over arrays: it copies the binary string
  into a byte view, then fills the channel one sample at a time. It is proved
  equal to the pure `Decode`. `Decode` is proved to round-trip with an
  encoder, `Encode`, in both directions.
- `Intensity` (intensity.dfy) is the `sum += value` loop of `animate`
  (`FrameSum`), proved against a recursive `Sum` and its bounds.
- `Playback` (playback.dfy) is the playback state machine as a value,
  `Player`. It holds the module-level variables, the Web Audio handles handed
  out so far, and a record of the audio: the buffers queued, the buffers
  started, the sources sounding, and the sources whose `ended` event is still
  to come. Each entry point is a function from the old state to the new one.
  Lemmas prove that every entry point keeps the invariant `Inv`. `Inv` says
  three things:
  - `isPlaying` agrees with `currentAudioSource`;
  - the handles are well formed;
  - the buffers started are queued ones, in submission order.
  Further lemmas prove the properties of each entry point.
- `Avatar.AudioPlayer` (avatar.dfy) is a class with the source's mutable
  variables as fields. It has one method per entry point, and each method is
  proved to change its state exactly as the matching `Playback` function
  says. `StopAudioPlayback` keeps the source's `pop` loop.
- `Traces` (traces.dfy) covers any order of the events that reach this code:
  `initAudioAnalysis`, `resumeAudioContext`, the completion of
  `context.resume()`, `playAndAnalyzeAudio`, `stopAudioPlayback` and a
  source's `ended` event. On every feasible run the invariant holds. A run
  without a stop loses no buffer.

Two small shared modules sit beside them: `Wrappers` (wrappers.dfy) holds
`Option`, and `Bytes` (bytes.dfy) holds `Byte`, the element type of a
`Uint8Array`, used by both the decoder's view and the analyser's snapshot.

Web Audio nodes (AudioBuffers and source nodes) are numbered handles, counted
as they are created. The asynchronous completion of `context.resume()` and a
source's `onended` callback are explicit events. Each event runs to
completion before the next one, as on the browser's single event loop.

Behaviour of the code worth knowing:
- A late `ended` callback is not harmless: it clears whichever source is
  current, not only its own (see Findings).
- Each call to `resumeAudioContext` made while the context is suspended
  issues another `resume()` request, and each completion calls
  `processQueue` (`pendingResumes` counts them).
- A payload of fewer than two bytes fails to decode: `createBuffer` refuses a
  buffer of zero frames. An odd-length payload also fails: the sample loop
  runs `i < n/2` over the fractional count, so its last `getInt16` reads past
  the end.

## Model

| member | source | states |
|---|---|---|
| `Pcm.Int16LE` | client/src/avatar.ts:83 | a sample lies in [-32768, 32767] and is the two's-complement reading of the little-endian word `lo + 256*hi` |
| `Pcm.ToUint8` | client/src/avatar.ts:70 | storing a character code below 256 into the Uint8Array keeps it unchanged |
| `Pcm.Latin1Bytes` | client/src/avatar.ts:67-71 | the view has one byte per character of the binary string, and each byte is that character's code (atob yields codes below 256) |
| `Pcm.Samples` | client/src/avatar.ts:75-86 | a byte sequence yields `length/2` samples (floor), each a signed 16-bit value |
| `Pcm.Decode` | client/src/avatar.ts:64-91 | decoding succeeds exactly when the payload has an even length of at least 2; then it yields `length/2` samples |
| `Pcm.DecodedSampleAt` | client/src/avatar.ts:81-86 | sample i of a successful decode is the signed little-endian value of bytes 2i and 2i+1 |
| `Pcm.EncodeSample` | client/src/avatar.ts:83 | the two little-endian bytes of a sample read back, via getInt16, as that sample |
| `Pcm.DecodeEncode` | client/src/avatar.ts:75-86 | decoding the little-endian encoding of any non-empty sequence of 16-bit samples gives the sequence back |
| `Pcm.EncodeDecode` | client/src/avatar.ts:75-86 | re-encoding the samples of an even-length payload gives the payload's bytes back |
| `Pcm.DecodePcm16` | client/src/avatar.ts:64-86 | the byte-copy loop and the sample loop produce exactly `Decode` of the string's bytes (char code mod 256), or fail where the source throws |
| `Intensity.Sum` | client/src/avatar.ts:194-198 | the sum of a frequency snapshot is at most 255 times its length |
| `Intensity.SumZeroIffSilent` | client/src/avatar.ts:194-199 | the frame sum is 0 exactly when every band is 0 |
| `Intensity.SumFullIffSaturated` | client/src/avatar.ts:194-199 | the frame sum reaches 255·length exactly when every band is 255 |
| `Intensity.FrameSum` | client/src/avatar.ts:194-198 | the accumulation loop returns the snapshot's sum, at most 255 per band |
| `Playback.CanAdvance` | client/src/avatar.ts:101 | playback may advance only when nothing is playing, the queue is non-empty and the context has been resumed |
| `Playback.ProcessQueue` | client/src/avatar.ts:98-123 | started ++ queue is preserved; when it changes anything, the guard was open, exactly the head of the queue moved to the end of the started log, the rest of the queue stays, and the new source is current and sounding |
| `Playback.QueueFromBase64` | client/src/avatar.ts:61-92 | the queue grows by exactly the decoded buffer at its tail; with no listener or a throwing decode, nothing changes |
| `Playback.PlayAndAnalyze` | client/src/avatar.ts:49-58 | a submission adds its decoded buffer to the submission log; started ++ queue grows by that buffer and nothing else |
| `Playback.OnEnded` | client/src/avatar.ts:117-122 | a completion loses no queued buffer (started ++ queue is preserved), and the ended source, if created before the call, no longer owes an event afterwards |
| `Playback.Stop` | client/src/avatar.ts:128-148 | after a stop the queue is empty and no source is current; the current source (if any) is silenced; nothing else is started |
| `Playback.ResumeAudioContext` | client/src/avatar.ts:14-25 | with no listener nothing changes; with a running context only the flag is set, synchronously; a suspended one gets one more pending resume and the flag waits for its completion; nothing starts playing here |
| `Playback.ResumeCompleted` | client/src/avatar.ts:16-21 | when a resume completes, the context runs, the flag is set and no buffer is lost (started ++ queue is preserved); with a listener, an analyser, nothing playing and a non-empty queue, the head starts playing and the tail remains queued |
| `Playback.InitAudioAnalysis` | client/src/avatar.ts:27-44 | after initialisation a listener exists, and an analyser too unless a listener already existed; a call when a listener already exists changes nothing |
| `Playback.Initial` | client/src/avatar.ts:4-12 | at load nothing is queued, submitted or started, nothing plays, the context is not resumed, and neither listener nor analyser exists |
| `Playback.InitialInv` | client/src/avatar.ts:8-12 | the module's initial state satisfies the invariant and the single-playback rule |
| `Playback.ProcessQueueKeepsInv` | client/src/avatar.ts:101-115 | advancing keeps `isPlaying <==> currentAudioSource != null`, well-formed handles and submission order |
| `Playback.QueueKeepsInv` | client/src/avatar.ts:88 | pushing a decoded buffer keeps the invariant |
| `Playback.PlayAndAnalyzeKeepsInv` | client/src/avatar.ts:49-58 | a submission keeps the invariant |
| `Playback.OnEndedKeepsInv` | client/src/avatar.ts:117-122 | a completion clears `isPlaying` and the current source and then either stays idle with the queue unchanged or starts the old head on a fresh source; it keeps the invariant, and keeps the single-playback rule when the ended source is current or none is |
| `Playback.StopKeepsInv` | client/src/avatar.ts:130-146 | stopping keeps the invariant and the single-playback rule |
| `Playback.ResumeKeepsInv` | client/src/avatar.ts:14-25 | resumeAudioContext keeps the invariant |
| `Playback.ResumeCompletedKeepsInv` | client/src/avatar.ts:16-21 | completion of a resume keeps the invariant |
| `Playback.InitKeepsInv` | client/src/avatar.ts:27-44 | initAudioAnalysis keeps the invariant |
| `Playback.OnEndedIfCurrent` | client/src/avatar.ts:117-122 | the guarded closure loses no buffer and settles the ended source; a stale event of a source that is not current leaves the current source playing and the queue as it was |
| `Playback.OnEndedIfCurrentKeepsExclusive` | client/src/avatar.ts:117-122 | with an "only if current" guard, every completion keeps the invariant and the single-playback rule |
| `Playback.AdvanceTakesHead` | client/src/avatar.ts:105-115 | when processQueue proceeds, the remaining queue is the old tail, the old head is started on a fresh source, `isPlaying` is set and that source is current |
| `Playback.AdvanceTwiceIsAdvanceOnce` | client/src/avatar.ts:101-103 | a second advance after the first changes nothing (a forced advance while playing is a no-op) |
| `Playback.StopClearsEverything` | client/src/avatar.ts:128-148 | after a stop the queue is empty, nothing is current and `isPlaying` is false; stopping twice equals stopping once; with nothing playing and nothing queued a stop changes nothing |
| `Playback.SubmitBeforeReadyWaits` | client/src/avatar.ts:49-54 | before the context is resumed, a submission only appends its buffer; nothing starts |
| `Playback.StopThenSubmitPlaysOnlyNew` | client/src/avatar.ts:49-58 | after a stop, a decodable submission to a ready player starts that buffer alone, with an empty queue |
| `Playback.CompleteCurrent` | client/src/avatar.ts:117-122 | delivering the current source's completion keeps the invariant |
| `Playback.CompleteN` | client/src/avatar.ts:117-122 | any number of successive natural completions keeps the invariant |
| `Playback.DrainInOrder` | client/src/avatar.ts:105-122 | while playing and ready, k natural completions start exactly the first k queued buffers, in queue order, and playback continues |
| `Playback.ResumeDrainsBacklog` | client/src/avatar.ts:16-21 | buffers queued while suspended all play, in their original order and without resubmission, once a pending resume completes |
| `Avatar.AudioPlayer.constructor` | client/src/avatar.ts:3-12 | the module starts with no listener, an empty queue and nothing playing, and satisfies the invariant |
| `Avatar.AudioPlayer.InitAudioAnalysis` | client/src/avatar.ts:27-44 | the method changes the state exactly as `Playback.InitAudioAnalysis` and keeps the invariant |
| `Avatar.AudioPlayer.ResumeAudioContext` | client/src/avatar.ts:14-25 | the method changes the state exactly as `Playback.ResumeAudioContext` and keeps the invariant |
| `Avatar.AudioPlayer.ResumeCompleted` | client/src/avatar.ts:16-21 | the promise continuation changes the state exactly as `Playback.ResumeCompleted` |
| `Avatar.AudioPlayer.PlayAndAnalyzeAudio` | client/src/avatar.ts:49-58 | the method changes the state exactly as `Playback.PlayAndAnalyze` |
| `Avatar.AudioPlayer.QueueAudioBufferFromBase64` | client/src/avatar.ts:61-92 | the method runs the decoder and pushes at the tail exactly as `Playback.QueueFromBase64` |
| `Avatar.AudioPlayer.ProcessQueue` | client/src/avatar.ts:98-123 | the method changes the state exactly as `Playback.ProcessQueue`, and leaves every field unchanged when a guard holds |
| `Avatar.AudioPlayer.OnEnded` | client/src/avatar.ts:117-122 | the closure, unconditional as written, changes the state exactly as `Playback.OnEnded` |
| `Avatar.AudioPlayer.StopAudioPlayback` | client/src/avatar.ts:128-148 | the method, with its pop loop, changes the state exactly as `Playback.Stop`: empty queue, no current source, not playing |
| `Traces.StepKeepsInv` | client/src/avatar.ts:14-148 | every entry point and every browser event keeps the invariant |
| `Traces.RunKeepsInv` | client/src/avatar.ts:14-148 | on every feasible run, `isPlaying <==> currentAudioSource != null` holds and buffers are started in submission order |
| `Traces.ReachableInv` | client/src/avatar.ts:8-148 | every run from the module's initial state keeps the invariant; with guarded completions it also keeps at most one source sounding |
| `Traces.NoStopLosesNothing` | client/src/avatar.ts:88-122 | on a run without a stop, the buffers started followed by the queue are exactly the buffers submitted |
| `Traces.StaleCompletionOverlaps` | client/src/avatar.ts:117-122 | a six-event run from the initial state, with the completion as written, ends with two sources sounding |

## Left out

- `window.atob` (client/src/avatar.ts:65) is a browser function. The model
  takes its result: `Some(binary string)`, or `None` when it throws.
- Floating-point work is not modelled. This covers `sample / 32768.0` (:85),
  the mean `sum / length` (:199), the `/ 255` normalisation (:204), and the
  particle positions and scales (:165-171, :215-220). Samples stay the
  integers `getInt16` returns; the frame is only summed.
- `analyser.getByteFrequencyData` is not modelled: the snapshot is an input
  to `FrameSum`. What the analyser shows when nothing plays is up to Web Audio.
- Three.js is not modelled: the scene, renderer and camera, the
  `requestAnimationFrame` loop, the `ResizeObserver` and
  `createParticleAvatar` (:152-237).
- The Web Audio node wiring is not modelled: `createBufferSource`, `connect`,
  `start`, `stop` and `disconnect` are numbered handles. A source is in
  `audible` from its start until it is stopped or ends.
- Playback.Stop: does not model `stop()` or `disconnect()` throwing. The
  source node was started by `processQueue`, so Web Audio does not throw
  here, and the `finally` block forces the same idle state either way.
- The 16 kHz sample rate passed to `createBuffer` (:76) is not modelled: a
  buffer carries only its samples.
- `console` logging is not modelled.
- The `interrupted` context state of some browsers is not modelled. Only
  `suspended`, `running` and `closed` are.
- `client/src/main.ts` is glue and not part of this model: UI, credential
  fetch and the session callbacks that call these entry points. So is
  `server/src/server.ts`.
- Promise timing is not modelled. A resume completes in a separate
  `ResumeCompleted` event, which the browser may deliver at any later time.

## Findings

| source | as written | input that shows it | evidently intended | confidence | as-written member | corrected member |
|---|---|---|---|---|---|---|
| client/src/avatar.ts:117-122 | the `onended` closure clears `isPlaying` and `currentAudioSource` whichever source is current | initialise with a running context; submit A (source 0 starts); the agent starts listening (source 0 is stopped; its `ended` event is queued); submit B (source 1 starts); source 0's `ended` arrives (state cleared while source 1 plays); submit C: source 2 starts beside source 1 | only the current source's completion returns the player to idle, so at most one buffer sounds at a time | medium, not executed (needs a chunk to arrive between `stop()` and the dispatch of its `ended` event) | `Traces.StaleCompletionOverlaps` | `Playback.OnEndedIfCurrentKeepsExclusive` |

The class `Avatar.AudioPlayer` keeps the completion as written. With
`Completion.IfCurrent`, `Traces.ReachableInv` proves that every run keeps at
most one source sounding.

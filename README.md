# espeakng.js audio core in Dafny

This project models two in-memory parts of espeakng.js and proves properties about them.

**`PushAudioNode`** (js/demo.js) is a streaming node:

- `push` queues chunks of samples;
- `connect` records destinations, and `_do_connect` wires the script processor to them;
- `addTrackCallback` registers callbacks under playback timestamps;
- `handleEvent` runs once per audio-processing event:
  - it starts the clock on the first event;
  - it sweeps the registry: stale entries are dropped, entries inside this buffer's time window fire, and future entries are kept;
  - it copies up to one buffer of samples from the front of the queue;
  - once a closed node has drained, it ends the stream and disconnects.

**`SimpleTTS`** (js/espeakng-simple.js) has three parts:

- the queue of callbacks waiting for the worker to be ready;
- the defaulting of the constructor's and `speak`'s options;
- the buffer pipeline:
  - merge the worker's chunks;
  - optionally enhance: pre-emphasis, noise gate, comb filter, de-esser;
  - then process: compressor, block-percentile normalizer, look-ahead limiter.

How the model is built:

- Every stage that fills a fresh buffer in a loop is a method with that loop. Its postcondition equates the result with a specification function on the input.
- The properties of each stage are lemmas about that function.
- The node and the TTS object are classes whose methods update their fields.
- Samples are exact reals.
- Callbacks the code calls are recorded in order in an event log.
- Messages to the worker are recorded in order.
- The worker's answer to `synthesize` is a parameter: the chunks it returns.

Files:

- `wrappers.dfy`: `Option`.
- `samples.dfy`: absolute value, range peaks, scaling, and chunk concatenation.
- `stages.dfy`: `_mergeAudioChunks` and the seven stages.
- `push_audio.dfy`: `PushAudioNode`.
- `simple_tts.dfy`: `SimpleTTS`, `_enhanceAudio`, `_processAudio` and `speak`.

Behaviour of the code that is easy to miss, modelled as written:

- `push` on an unconnected node with no destination queues the chunk before it throws.
- `disconnect` keeps the queue and the registry.
- `connect` on a node that is already connected records the destination, but `_do_connect` returns early and never attaches it.
- `handleEvent` starts the clock when `!this.startTime`. A first event at playback time 0 leaves the node unstarted, so the start callback fires again on the next event.
- In exact arithmetic, the limiter's hard clip at ±0.99 never acts, because the look-ahead gain already keeps every sample within 0.95. The limiter is therefore idempotent on every buffer, not only on quiet ones.

## Model

| member | source | states |
|---|---|---|
| Samples.RangePeakBounds | js/espeakng-simple.js:153-156 | the running `Math.max` of absolute samples is non-negative, bounds every sample of the range, and is 0 or attained by one of them |
| Samples.FlattenLength | js/espeakng-simple.js:369-371 | the summed chunk lengths equal the length of the concatenation |
| Stages.MergeAudioChunks | js/espeakng-simple.js:368-382 | the result is the in-order concatenation of the chunks, of length the sum of their lengths |
| Stages.Emphasized | js/espeakng-simple.js:146-150 | the first-order filter keeps the length of its input |
| Stages.PreEmphasisNormalizesPeak | js/espeakng-simple.js:143-165 | length is kept; a positive pre-scale peak becomes exactly 0.8; a zero peak leaves the filtered buffer unscaled |
| Stages.ApplyPreEmphasis | js/espeakng-simple.js:143-165 | the loops compute the pre-emphasis specification |
| Stages.ScaleInPlace | js/espeakng-simple.js:159-161 | every sample of the array is multiplied by the scale, in place |
| Stages.GateStateBounds | js/espeakng-simple.js:175-202 | after any prefix, `holdCounter` is in [0,32], `releaseCounter` in [0,128], and a running hold means the gate is open |
| Stages.GateStepCases | js/espeakng-simple.js:186-202 | one iteration: a trigger resets the counters to 32/128 and passes the sample; the hold phase passes it; the release phase outputs it faded by the decremented counter over 128; with both counters 0 the output is 0 |
| Stages.GatedSample | js/espeakng-simple.js:186-202 | each output sample of the gate follows those cases from the state reached before it |
| Stages.NoiseGateSample | js/espeakng-simple.js:179-202 | for sample i of the gate: a look-ahead peak over [i, min(i+64, n)) above 0.02 passes the sample and re-arms the counters to 32 and 128; otherwise a running hold passes it, a running release outputs it times the already decremented counter over 128, and an exhausted gate outputs 0; the output never exceeds the input in magnitude |
| Stages.FadeBound | js/espeakng-simple.js:193-196 | a release fade never amplifies |
| Stages.GateStaysClosed | js/espeakng-simple.js:175-202 | with no trigger anywhere, the gate stays closed with both counters at 0 |
| Stages.NoiseGateQuiet | js/espeakng-simple.js:168-205 | a buffer with no sample above 0.02 is gated to silence |
| Stages.WindowPeak | js/espeakng-simple.js:181-184 | the inner look-ahead loop computes the peak of its window |
| Stages.ApplyNoiseGate | js/espeakng-simple.js:168-205 | the loop computes the noise-gate specification |
| Stages.CombRecurrence | js/espeakng-simple.js:214-222 | `out[i] = in[i]` for i < 15; otherwise it is 0.7·in[i] + 0.3·(in[i] + 0.2·out[i-15]), read from the output already computed |
| Stages.CombLinear | js/espeakng-simple.js:214-222 | the comb stage commutes with scaling by any gain |
| Stages.CombCausal | js/espeakng-simple.js:214-222 | an output sample depends only on input samples up to its own index |
| Stages.CombSilent | js/espeakng-simple.js:214-222 | silence stays silence |
| Stages.ApplySpectralEnhancement | js/espeakng-simple.js:208-225 | the loop computes the comb specification |
| Stages.DeEssSample | js/espeakng-simple.js:234-249 | each output is `in[i]` or the average with the raw previous input (0 at i = 0); it averages exactly when the step exceeds 0.3; the result lies between the two and halves the step |
| Stages.DeEssSmooth | js/espeakng-simple.js:234-249 | a buffer with no step above 0.3 is unchanged |
| Stages.ApplyDeEsser | js/espeakng-simple.js:228-252 | the loop computes the de-esser specification |
| Stages.EnvBounds | js/espeakng-simple.js:280-286 | the envelope stays within [0, b] when every sample so far is within b |
| Stages.CompGainRange | js/espeakng-simple.js:287-293 | the gain is in (0,1]; above the 0.5 threshold, gain·envelope = 0.5 + excess/2.5 |
| Stages.CompressSample | js/espeakng-simple.js:280-297 | each output is at most 1.2 times its input in magnitude and keeps its sign |
| Stages.CompressQuiet | js/espeakng-simple.js:280-297 | with every sample at most 0.5, compression is the ×1.2 make-up gain alone |
| Stages.CompressSilent | js/espeakng-simple.js:277-297 | an all-zero buffer compresses to an all-zero buffer of the same length |
| Stages.ApplyCompression | js/espeakng-simple.js:271-300 | the loop computes the compression specification |
| Stages.SortAscendingCorrect | js/espeakng-simple.js:321 | the peak sort yields an ascending permutation of the peaks |
| Stages.PercentileIndex | js/espeakng-simple.js:322 | `floor(0.9·count)` is a valid index of a non-empty list |
| Stages.LoudPeaksAbove | js/espeakng-simple.js:308-316 | every collected peak exceeds 0.01 and is the peak of one 512-sample block |
| Stages.LoudPeaksEmpty | js/espeakng-simple.js:308-316 | no peak is collected exactly when every block peak is at most 0.01 |
| Stages.SampleInBlock | js/espeakng-simple.js:308-313 | each sample lies in block i/512 and is bounded by that block's peak |
| Stages.NormalizeSilent | js/espeakng-simple.js:308-318 | no loud block exactly when every sample is at most 0.01, and then the input is returned unchanged |
| Stages.NormalizeLoud | js/espeakng-simple.js:318-322 | with some loud block, the percentile index is in range; the sorted peaks are ascending and a permutation; the target is the sorted peak at that index, above 0.01, and the peak of one of the blocks |
| Stages.NormalizeIsScale | js/espeakng-simple.js:322-331 | with some loud block, every output sample is `in[i]·(0.75/targetPeak)·volume` |
| Stages.NormalizeVolume | js/espeakng-simple.js:325-331 | with some loud block, the output at a volume is the unit-volume output scaled by that volume |
| Stages.ApplyGain | js/espeakng-simple.js:328-331 | the loop multiplies every sample by the gain |
| Stages.NormalizeAudio | js/espeakng-simple.js:303-334 | the loops compute the normalization specification, returning the input itself when no block is loud |
| Stages.LimitSample | js/espeakng-simple.js:343-363 | every output lies in [-0.99, 0.99], within 0.95 and within its input's magnitude, and is the look-ahead attenuation of its input |
| Stages.LimitedValue | js/espeakng-simple.js:349-355 | a window peak above 0.95 scales its sample by 0.95/peak, otherwise the sample passes, and either way it ends within 0.95 |
| Stages.LimitQuiet | js/espeakng-simple.js:343-363 | a buffer with every sample at most 0.95 is returned unchanged |
| Stages.LimitIdempotent | js/espeakng-simple.js:337-366 | limiting twice equals limiting once |
| Stages.LookAheadPeak | js/espeakng-simple.js:345-348 | the inner loop computes the peak of the 32-sample look-ahead window |
| Stages.ApplyLimiting | js/espeakng-simple.js:337-366 | the loop computes the limiter specification |
| PushAudio.EffectiveBufferSize | js/demo.js:22 | an absent or zero buffer size falls back to 4096; any other is kept |
| PushAudio.PushAudioNode.constructor | js/demo.js:18-30 | a fresh node: empty queue, sinks and registry, unconnected, unclosed, `startTime` 0 |
| PushAudio.PushAudioNode.Push | js/demo.js:32-43 | a closed node throws and changes nothing; otherwise the chunk is queued; an unconnected node with no sink then throws with the chunk kept; one with sinks connects to all of them |
| PushAudio.PushAudioNode.Close | js/demo.js:45-47 | sets `closed` and nothing else |
| PushAudio.PushAudioNode.Connect | js/demo.js:49-54 | appends the destination to `sinks`; connects only when the queue is non-empty; an already connected node attaches nothing new |
| PushAudio.PushAudioNode.DoConnect | js/demo.js:56-63 | the first call attaches every sink and binds the handler; while connected it changes nothing |
| PushAudio.PushAudioNode.Disconnect | js/demo.js:65-69 | unbinds and detaches; `connected` is false; queue, sinks and registry stay |
| PushAudio.RegisterLookup | js/demo.js:71-75 | after registration, the list for the timestamp is the old list, or empty, followed by the callback |
| PushAudio.RegisterOthers | js/demo.js:71-75 | registration leaves the lists of other timestamps unchanged |
| PushAudio.RegisterKeys | js/demo.js:71-75 | a new timestamp joins the end of the key order; an existing one keeps its position |
| PushAudio.RegisterDistinct | js/demo.js:71-75 | registration keeps timestamps unique, as Map keys are |
| PushAudio.PushAudioNode.AddTrackCallback | js/demo.js:71-75 | the registry becomes the registration of the callback; nothing else changes |
| PushAudio.KeptMembers | js/demo.js:85-98 | the sweep keeps exactly the future entries, in order |
| PushAudio.KeptLookup | js/demo.js:85-98 | after the sweep, a timestamp keeps its callbacks when it is neither stale nor in the window, and otherwise has no entry |
| PushAudio.FiringsMembers | js/demo.js:85-98 | a callback fires exactly when it is registered under a timestamp in [currentTime, currentTime + duration); stale entries fire nothing |
| PushAudio.SweepIdempotent | js/demo.js:85-98 | a second sweep at the same time keeps everything and fires nothing |
| PushAudio.AllFuture | js/demo.js:85-98 | a registry whose entries are all in the future is kept whole and fires nothing |
| PushAudio.PushAudioNode.FireCallbacks | js/demo.js:91-93 | the entry's callbacks are recorded in order |
| PushAudio.PushAudioNode.SweepTrackCallbacks | js/demo.js:85-98 | the registry becomes the kept entries and the firings are appended in registry order |
| PushAudio.DrainedFlatten | js/demo.js:100-115 | after draining, the queue's concatenation is the old concatenation minus its first `min(room, total)` samples |
| PushAudio.DrainedEmpty | js/demo.js:100-115 | a queue holding fewer samples than the room is emptied, and only a queue holding at most the room is emptied |
| PushAudio.DrainStep | js/demo.js:101-114 | one iteration copies the next stretch of the concatenation, leaves the rest queued, and shrinks the queue even for an empty chunk |
| PushAudio.DrainQueue | js/demo.js:100-115 | exactly `min(bufferSize, total)` samples are copied to offsets 0..k-1, equal to the front of the concatenation; later offsets are untouched; the queue becomes the drained queue |
| PushAudio.CopyToChannel | js/demo.js:104-108 | the stretch is written at the offset and nothing else of the buffer changes |
| PushAudio.PushAudioNode.DrainInto | js/demo.js:100-115 | the node's queue is drained into the output buffer, as above |
| PushAudio.PushAudioNode.StartClock | js/demo.js:78-83 | a node whose `startTime` is 0 takes the event's time and calls the start callback if there is one |
| PushAudio.PushAudioNode.EndIfDrained | js/demo.js:117-122 | a closed node with an empty queue calls the end callback with `playbackTime - startTime` and leaves `connected` false |
| PushAudio.PushAudioNode.HandleEvent | js/demo.js:77-123 | the whole event: clock, sweep, drain, and the end sequence, with every field's new value |
| SimpleTts.ConstructorSettings | js/espeakng-simple.js:8-15 | no options give the worker path, "en-us", 175, 50, 1.0 and enhancement on; each truthy path, voice, rate, pitch or volume is kept, and each absent or falsy one becomes its built-in default; enhancement is off only for an explicit `false` |
| SimpleTts.ResolveSpeakOptions | js/espeakng-simple.js:93-97 | an explicit rate, pitch, volume or enhancement is used as given; only an absent one takes the default; the voice falls back on any falsy value |
| SimpleTts.FalsyOptions | js/espeakng-simple.js:93-97 | explicit 0 and `false` values override the defaults, while an empty voice does not |
| SimpleTts.ReadyCallsFifo | js/espeakng-simple.js:54-58 | each queued ready callback is called exactly once, in queue order, with the error |
| SimpleTts.ReadyCallsSnoc | js/espeakng-simple.js:54-66 | a callback that `onReady` appends before the worker is ready is called after every callback queued before it |
| SimpleTts.SimpleTTS.constructor | js/espeakng-simple.js:8-19 | the settings are the defaulted options; the object is not ready and its queue is empty |
| SimpleTts.SimpleTTS.ExecuteReadyCallbacks | js/espeakng-simple.js:54-58 | the queue is empty afterwards, and its callbacks are called in FIFO order with the error |
| SimpleTts.SimpleTTS.OnReady | js/espeakng-simple.js:60-66 | when ready, the callback is called at once; otherwise it is appended to the queue |
| SimpleTts.SimpleTTS.WorkerReady | js/espeakng-simple.js:26-29 | the object becomes ready and runs the queue without an error |
| SimpleTts.SimpleTTS.WorkerError | js/espeakng-simple.js:32-35 | the queue runs with the error |
| SimpleTts.EnhanceAudio | js/espeakng-simple.js:126-140 | the four enhancement stages in order |
| SimpleTts.ProcessAudio | js/espeakng-simple.js:255-268 | compression, normalization and limiting in order |
| SimpleTts.ProcessedBounded | js/espeakng-simple.js:255-268 | processing keeps the length and bounds every sample by 0.95, hence by the 0.99 clip |
| SimpleTts.SpeechOutputBounded | js/espeakng-simple.js:105-122 | the buffer handed to the callback has one sample per synthesized sample, each within 0.95 |
| SimpleTts.EnhancedSilent | js/espeakng-simple.js:126-140 | enhancement maps silence to silence |
| SimpleTts.ProcessedSilent | js/espeakng-simple.js:255-268 | processing returns a silent buffer unchanged |
| SimpleTts.SpeechSilent | js/espeakng-simple.js:105-122 | silent chunks come out of `speak` as silence of their total length |
| SimpleTts.FinishSynthesis | js/espeakng-simple.js:108-121 | the chunks are merged, enhanced only when `enhance` is set, then processed at the volume |
| SimpleTts.SimpleTTS.Speak | js/espeakng-simple.js:76-123 | before ready, the callback gets `null` and no message is sent; otherwise voice, rate, pitch and the text are sent in that order and the callback gets the processed buffer |

## Left out

- The Web Worker: its creation, message dispatch, `_sendMessage` with its random callback identifiers, and `getVoices`. Messages are recorded instead, and the worker's answer is a parameter of `Speak`.
- Callback timing: `speak`'s processing runs in the worker's last answer. The model runs it inside `Speak`.
- Callback re-entrancy is not modelled; a callback cannot call back into the node or the TTS object.
- `createAudioBuffer` and `playAudioData`, with the random reverb impulse. They are AudioContext calls and randomness.
- The script processor and the audio context: `createScriptProcessor`, `scriptNode.connect`/`disconnect`, and the choice between `copyToChannel` and `getChannelData().set`. They are abstract state (`handlerBound`, `attached`) and one copy method.
- The demo page code after `PushAudioNode` (the global context and the DOM helpers).
- Float32 and IEEE-754 rounding. Samples, gains and times are exact reals.
- `speak`'s `typeof options === 'function'` overload, and `null` or non-boolean, non-number option values. Options are absent or present with a value of the declared type.
- The de-esser's unused `centerFreq` and `bandwidth`, and so its `sampleRate` parameter, and the limiter's unused `release`. They have no effect on any result.
- The worker path's use: it is defaulted but no worker is created.
- `peaks.sort` is the library sort; it is modelled by an insertion-sort function proved to produce an ascending permutation.
- The JavaScript Map of track callbacks is an insertion-ordered list of entries with distinct timestamps.
- The sweep is modelled as building the kept list. The source deletes during `for…of`; no callback can observe the difference.

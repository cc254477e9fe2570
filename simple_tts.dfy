/**
 * `SimpleTTS` (js/espeakng-simple.js): the queue of callbacks waiting for
 * the synthesis worker to become ready, the defaulting of the constructor's
 * and `speak`'s options, and the buffer pipeline that turns the worker's
 * sample chunks into the audio handed to `speak`'s callback.
 *
 * The worker is abstract: the messages sent to it are recorded in `sent`,
 * its `ready` message and its errors are the methods `WorkerReady` and
 * `WorkerError`, and the chunks it returns for a `synthesize` request are a
 * parameter of `Speak`. Callbacks are recorded in order instead of called.
 */
module SimpleTts {
  import opened Wrappers
  import opened Samples
  import opened Stages

  // ---------------------------------------------------------------------
  // Options and their defaults. An option the caller did not pass is
  // `None`; JavaScript `null` and non-boolean or non-number values are not
  // modelled.

  /** The options object of `new SimpleTTS(options)`. */
  datatype TtsOptions = TtsOptions(
    workerPath: Option<string>,
    defaultVoice: Option<string>,
    defaultRate: Option<real>,
    defaultPitch: Option<real>,
    defaultVolume: Option<real>,
    enhanceAudio: Option<bool>)

  /** The settings a `SimpleTTS` keeps from its construction. */
  datatype Settings = Settings(
    workerPath: string,
    defaultVoice: string,
    defaultRate: real,
    defaultPitch: real,
    defaultVolume: real,
    enhanceAudio: bool)

  /** The options object of `speak(text, options, callback)`. */
  datatype SpeakOptions = SpeakOptions(
    voice: Option<string>,
    rate: Option<real>,
    pitch: Option<real>,
    volume: Option<real>,
    enhance: Option<bool>)

  /** The voice, rate, pitch, volume and enhancement one `speak` call uses. */
  datatype SpeechParams = SpeechParams(voice: string, rate: real, pitch: real, volume: real, enhance: bool)

  const DefaultWorkerPath: string := "js/espeakng.worker.js"
  const DefaultVoice: string := "en-us"
  const DefaultRate: real := 175.0
  const DefaultPitch: real := 50.0
  const DefaultVolume: real := 1.0

  /** `a || b` on a string: an absent or empty string falls back. */
  function OrString(a: Option<string>, b: string): (r: string)
    ensures a.Some? && a.value != "" ==> r == a.value
    ensures a == None || a == Some("") ==> r == b
  {
    if a.Some? && a.value != "" then a.value else b
  }

  /** `a || b` on a number: an absent or zero number falls back. */
  function OrNumber(a: Option<real>, b: real): (r: real)
    ensures a.Some? && a.value != 0.0 ==> r == a.value
    ensures a == None || a == Some(0.0) ==> r == b
  {
    if a.Some? && a.value != 0.0 then a.value else b
  }

  /**
   * The constructor's defaulting: `options || {}`, then `||` for the path,
   * voice, rate, pitch and volume, and `enhanceAudio !== false`.
   */
  function ConstructorSettings(options: Option<TtsOptions>): (s: Settings)
    ensures options == None ==>
      s == Settings(DefaultWorkerPath, DefaultVoice, DefaultRate, DefaultPitch, DefaultVolume, true)
    ensures options.Some? ==> s.enhanceAudio == (options.value.enhanceAudio != Some(false))
    // A truthy option is kept.
    ensures options.Some? && options.value.workerPath.Some? && options.value.workerPath.value != "" ==>
      s.workerPath == options.value.workerPath.value
    ensures options.Some? && options.value.defaultVoice.Some? && options.value.defaultVoice.value != "" ==>
      s.defaultVoice == options.value.defaultVoice.value
    ensures options.Some? && options.value.defaultRate.Some? && options.value.defaultRate.value != 0.0 ==>
      s.defaultRate == options.value.defaultRate.value
    ensures options.Some? && options.value.defaultPitch.Some? && options.value.defaultPitch.value != 0.0 ==>
      s.defaultPitch == options.value.defaultPitch.value
    ensures options.Some? && options.value.defaultVolume.Some? && options.value.defaultVolume.value != 0.0 ==>
      s.defaultVolume == options.value.defaultVolume.value
    // An absent or falsy option becomes the built-in default.
    ensures options.Some? && (options.value.workerPath == None || options.value.workerPath == Some("")) ==>
      s.workerPath == DefaultWorkerPath
    ensures options.Some? && (options.value.defaultVoice == None || options.value.defaultVoice == Some("")) ==>
      s.defaultVoice == DefaultVoice
    ensures options.Some? && (options.value.defaultRate == None || options.value.defaultRate == Some(0.0)) ==>
      s.defaultRate == DefaultRate
    ensures options.Some? && (options.value.defaultPitch == None || options.value.defaultPitch == Some(0.0)) ==>
      s.defaultPitch == DefaultPitch
    ensures options.Some? && (options.value.defaultVolume == None || options.value.defaultVolume == Some(0.0)) ==>
      s.defaultVolume == DefaultVolume
    ensures s.workerPath != "" && s.defaultVoice != ""
    ensures s.defaultRate != 0.0 && s.defaultPitch != 0.0 && s.defaultVolume != 0.0
  {
    var o := options.GetOr(TtsOptions(None, None, None, None, None, None));
    Settings(
      OrString(o.workerPath, DefaultWorkerPath),
      OrString(o.defaultVoice, DefaultVoice),
      OrNumber(o.defaultRate, DefaultRate),
      OrNumber(o.defaultPitch, DefaultPitch),
      OrNumber(o.defaultVolume, DefaultVolume),
      o.enhanceAudio != Some(false))
  }

  /**
   * `speak`'s defaulting: the voice falls back on the default when absent or
   * empty; rate, pitch, volume and enhancement fall back only when absent.
   */
  function ResolveSpeakOptions(options: SpeakOptions, s: Settings): (p: SpeechParams)
    ensures p.voice == OrString(options.voice, s.defaultVoice)
    ensures options.rate.Some? ==> p.rate == options.rate.value
    ensures options.rate.None? ==> p.rate == s.defaultRate
    ensures options.pitch.Some? ==> p.pitch == options.pitch.value
    ensures options.pitch.None? ==> p.pitch == s.defaultPitch
    ensures options.volume.Some? ==> p.volume == options.volume.value
    ensures options.volume.None? ==> p.volume == s.defaultVolume
    ensures options.enhance.Some? ==> p.enhance == options.enhance.value
    ensures options.enhance.None? ==> p.enhance == s.enhanceAudio
  {
    SpeechParams(
      OrString(options.voice, s.defaultVoice),
      options.rate.GetOr(s.defaultRate),
      options.pitch.GetOr(s.defaultPitch),
      options.volume.GetOr(s.defaultVolume),
      options.enhance.GetOr(s.enhanceAudio))
  }

  /**
   * The two kinds of fallback differ on falsy values: an explicit 0 rate,
   * pitch or volume and an explicit `false` enhancement are used as given,
   * while an explicit empty voice is replaced by the default voice.
   */
  lemma FalsyOptions(s: Settings)
    ensures var p := ResolveSpeakOptions(SpeakOptions(Some(""), Some(0.0), Some(0.0), Some(0.0), Some(false)), s);
      p == SpeechParams(s.defaultVoice, 0.0, 0.0, 0.0, false)
    ensures var p := ResolveSpeakOptions(SpeakOptions(None, None, None, None, None), s);
      p == SpeechParams(s.defaultVoice, s.defaultRate, s.defaultPitch, s.defaultVolume, s.enhanceAudio)
  {
  }

  /**
   * Defaults set at construction reach `speak`, except that a zero rate,
   * pitch or volume given to the constructor is replaced there already, so
   * a call without options never uses a zero rate, pitch or volume.
   */
  lemma ConstructedDefaultsNonZero(options: Option<TtsOptions>)
    ensures var p := ResolveSpeakOptions(SpeakOptions(None, None, None, None, None), ConstructorSettings(options));
      p.rate != 0.0 && p.pitch != 0.0 && p.volume != 0.0 && p.voice != ""
  {
  }

  // ---------------------------------------------------------------------
  // The buffer pipeline.

  /** `_enhanceAudio`: pre-emphasis, then the noise gate, the comb stage and the de-esser. */
  function Enhanced(x: seq<real>): seq<real> {
    DeEss(Comb(NoiseGate(PreEmphasis(x))))
  }

  /** `_processAudio`: compression, then normalization to `volume`, then limiting. */
  function Processed(x: seq<real>, volume: real): seq<real> {
    Limit(Normalize(Compress(x), volume))
  }

  /** The buffer `speak` hands to its callback for the worker's chunks. */
  function SpeechOutput(chunks: seq<seq<real>>, enhance: bool, volume: real): seq<real> {
    var merged := Flatten(chunks);
    Processed(if enhance then Enhanced(merged) else merged, volume)
  }

  /** Enhancement keeps the length of the buffer. */
  lemma EnhancedLength(x: seq<real>)
    ensures |Enhanced(x)| == |x|
  {
  }

  /**
   * Processing keeps the length, and whatever the input and the volume,
   * every sample of the result lies within the limiter's threshold 0.95
   * and so within its hard clip at 0.99.
   */
  lemma ProcessedBounded(x: seq<real>, volume: real)
    ensures |Processed(x, volume)| == |x|
    ensures forall i :: 0 <= i < |x| ==> Abs(Processed(x, volume)[i]) <= LimitThreshold
    ensures forall i :: 0 <= i < |x| ==> -ClipLevel <= Processed(x, volume)[i] <= ClipLevel
  {
    var y := Normalize(Compress(x), volume);
    forall i | 0 <= i < |x|
      ensures Abs(Limit(y)[i]) <= LimitThreshold
      ensures -ClipLevel <= Limit(y)[i] <= ClipLevel
    {
      LimitSample(y, i);
    }
  }

  /**
   * The buffer handed to `speak`'s callback has one sample per sample the
   * worker produced, each within 0.95, with or without enhancement.
   */
  lemma SpeechOutputBounded(chunks: seq<seq<real>>, enhance: bool, volume: real)
    ensures |SpeechOutput(chunks, enhance, volume)| == TotalLength(chunks)
    ensures forall i :: 0 <= i < TotalLength(chunks) ==> Abs(SpeechOutput(chunks, enhance, volume)[i]) <= LimitThreshold
  {
    FlattenLength(chunks);
    var merged := Flatten(chunks);
    ProcessedBounded(if enhance then Enhanced(merged) else merged, volume);
  }

  /** Every stage of the enhancement maps a silent buffer to a silent buffer. */
  lemma EnhancedSilent(x: seq<real>)
    requires forall i :: 0 <= i < |x| ==> x[i] == 0.0
    ensures forall i :: 0 <= i < |x| ==> Enhanced(x)[i] == 0.0
  {
    PreEmphasisNormalizesPeak(x);
    var e := Emphasized(x);
    assert forall i :: 0 <= i < |x| ==> e[i] == 0.0;
    RangePeakBounds(e, 0, |e|);
    assert Peak(e) == 0.0;
    var p := PreEmphasis(x);
    assert p == e;
    NoiseGateQuiet(p);
    var g := NoiseGate(p);
    CombSilent(g);
    var c := Comb(g);
    assert forall i :: 0 <= i < |c| ==> Abs(c[i] - Previous(c, i)) <= DeEssThreshold;
    DeEssSmooth(c);
  }

  /** Processing maps a silent buffer to a silent buffer at any volume. */
  lemma ProcessedSilent(x: seq<real>, volume: real)
    requires forall i :: 0 <= i < |x| ==> x[i] == 0.0
    ensures Processed(x, volume) == x
  {
    CompressSilent(x);
    var c := Compress(x);
    assert c == x;
    NormalizeSilent(c, volume);
    LimitQuiet(c);
  }

  /** Silence from the worker comes out of `speak` as silence of the same length. */
  lemma SpeechSilent(chunks: seq<seq<real>>, enhance: bool, volume: real)
    requires forall c, i :: 0 <= c < |chunks| && 0 <= i < |chunks[c]| ==> chunks[c][i] == 0.0
    ensures |SpeechOutput(chunks, enhance, volume)| == TotalLength(chunks)
    ensures forall i :: 0 <= i < TotalLength(chunks) ==> SpeechOutput(chunks, enhance, volume)[i] == 0.0
  {
    FlattenSilent(chunks);
    FlattenLength(chunks);
    var merged := Flatten(chunks);
    if enhance {
      EnhancedSilent(merged);
      EnhancedLength(merged);
      ProcessedSilent(Enhanced(merged), volume);
      assert SpeechOutput(chunks, enhance, volume) == Enhanced(merged);
    } else {
      ProcessedSilent(merged, volume);
      assert SpeechOutput(chunks, enhance, volume) == merged;
    }
  }

  /** The concatenation of silent chunks is silent. */
  lemma {:induction false} FlattenSilent(chunks: seq<seq<real>>)
    requires forall c, i :: 0 <= c < |chunks| && 0 <= i < |chunks[c]| ==> chunks[c][i] == 0.0
    ensures forall i :: 0 <= i < |Flatten(chunks)| ==> Flatten(chunks)[i] == 0.0
  {
    if chunks != [] {
      assert forall c, i :: 0 <= c < |chunks[1..]| && 0 <= i < |chunks[1..][c]| ==> chunks[1..][c][i] == 0.0 by {
        forall c, i | 0 <= c < |chunks[1..]| && 0 <= i < |chunks[1..][c]|
          ensures chunks[1..][c][i] == 0.0
        {
          assert chunks[1..][c] == chunks[c + 1];
        }
      }
      FlattenSilent(chunks[1..]);
    }
  }

  /** `_enhanceAudio`, calling each stage in turn. */
  method EnhanceAudio(audioData: seq<real>) returns (deessed: seq<real>)
    ensures deessed == Enhanced(audioData)
  {
    var preEmphasis := ApplyPreEmphasis(audioData);
    var gated := ApplyNoiseGate(preEmphasis);
    var enhanced := ApplySpectralEnhancement(gated);
    deessed := ApplyDeEsser(enhanced);
  }

  /** `_processAudio`, calling each stage in turn. */
  method ProcessAudio(audioData: seq<real>, volume: real) returns (limited: seq<real>)
    ensures limited == Processed(audioData, volume)
  {
    var compressed := ApplyCompression(audioData);
    var normalized := NormalizeAudio(compressed, volume);
    limited := ApplyLimiting(normalized);
  }

  /**
   * The final call of `synthesize`'s callback: merge the chunks received,
   * enhance them when asked, then process them at the volume.
   */
  method FinishSynthesis(audioChunks: seq<seq<real>>, enhance: bool, volume: real) returns (audioData: seq<real>)
    ensures audioData == SpeechOutput(audioChunks, enhance, volume)
  {
    audioData := MergeAudioChunks(audioChunks);
    if enhance {
      audioData := EnhanceAudio(audioData);
    }
    audioData := ProcessAudio(audioData, volume);
  }

  // ---------------------------------------------------------------------
  // The object.

  /** The identity of a callback passed to `onReady`. */
  type CallbackId = nat

  /** A ready callback's call, with the worker's error or, when ready, none. */
  datatype ReadyCall = ReadyCall(callback: CallbackId, error: Option<string>)

  /** A message to the worker. */
  datatype Command = SetVoice(voice: string) | SetRate(rate: real) | SetPitch(pitch: real) | Synthesize(text: string)

  /** The calls `_executeReadyCallbacks(error)` makes for a queue, front first. */
  function ReadyCalls(queue: seq<CallbackId>, error: Option<string>): seq<ReadyCall> {
    if queue == [] then [] else [ReadyCall(queue[0], error)] + ReadyCalls(queue[1..], error)
  }

  /**
   * Each queued callback is called exactly once, in queue order, with the
   * error: the calls correspond one to one with the queue's positions.
   */
  lemma {:induction false} ReadyCallsFifo(queue: seq<CallbackId>, error: Option<string>)
    ensures |ReadyCalls(queue, error)| == |queue|
    ensures forall i :: 0 <= i < |queue| ==> ReadyCalls(queue, error)[i] == ReadyCall(queue[i], error)
  {
    if queue != [] {
      ReadyCallsFifo(queue[1..], error);
    }
  }

  /** Calls for a queue followed by one more callback are its calls followed by that one. */
  lemma {:induction false} ReadyCallsSnoc(queue: seq<CallbackId>, cb: CallbackId, error: Option<string>)
    ensures ReadyCalls(queue + [cb], error) == ReadyCalls(queue, error) + [ReadyCall(cb, error)]
  {
    if queue == [] {
      assert [cb][1..] == [];
    } else {
      assert (queue + [cb])[1..] == queue[1..] + [cb];
      ReadyCallsSnoc(queue[1..], cb, error);
    }
  }

  class SimpleTTS {
    const settings: Settings

    var ready: bool
    var readyCallbacks: seq<CallbackId>
    /** The ready callbacks called so far, in order. */
    var readyCalls: seq<ReadyCall>
    /** The messages sent to the worker, in order. */
    var sent: seq<Command>
    /** The arguments `speak` has passed to its callbacks: `None` for `null`. */
    var spoken: seq<Option<seq<real>>>

    /** `new SimpleTTS(options)`, before the worker answers. */
    constructor (options: Option<TtsOptions>)
      ensures settings == ConstructorSettings(options)
      ensures !ready && readyCallbacks == [] && readyCalls == [] && sent == [] && spoken == []
    {
      settings := ConstructorSettings(options);
      ready := false;
      readyCallbacks := [];
      readyCalls := [];
      sent := [];
      spoken := [];
    }

    /** `_executeReadyCallbacks(error)`: shifts the queue empty, calling each callback with `error`. */
    method ExecuteReadyCallbacks(error: Option<string>)
      modifies this
      ensures readyCallbacks == []
      ensures readyCalls == old(readyCalls) + ReadyCalls(old(readyCallbacks), error)
      ensures ready == old(ready) && sent == old(sent) && spoken == old(spoken)
    {
      while |readyCallbacks| > 0
        invariant readyCalls + ReadyCalls(readyCallbacks, error) == old(readyCalls) + ReadyCalls(old(readyCallbacks), error)
        invariant ready == old(ready) && sent == old(sent) && spoken == old(spoken)
      {
        var cb := readyCallbacks[0];
        readyCallbacks := readyCallbacks[1..];
        readyCalls := readyCalls + [ReadyCall(cb, error)];
      }
    }

    /** `onReady(callback)`: called at once when ready, queued otherwise. */
    method OnReady(cb: CallbackId)
      modifies this
      ensures ready ==> readyCalls == old(readyCalls) + [ReadyCall(cb, None)] && readyCallbacks == old(readyCallbacks)
      ensures !ready ==> readyCallbacks == old(readyCallbacks) + [cb] && readyCalls == old(readyCalls)
      ensures ready == old(ready) && sent == old(sent) && spoken == old(spoken)
    {
      if ready {
        readyCalls := readyCalls + [ReadyCall(cb, None)];
      } else {
        readyCallbacks := readyCallbacks + [cb];
      }
    }

    /** The worker's `ready` message: the object becomes ready and runs the queue. */
    method WorkerReady()
      modifies this
      ensures ready && readyCallbacks == []
      ensures readyCalls == old(readyCalls) + ReadyCalls(old(readyCallbacks), None)
      ensures sent == old(sent) && spoken == old(spoken)
    {
      ready := true;
      ExecuteReadyCallbacks(None);
    }

    /** The worker's `onerror` (or its failed creation): the queue runs with the error. */
    method WorkerError(error: string)
      modifies this
      ensures readyCallbacks == []
      ensures readyCalls == old(readyCalls) + ReadyCalls(old(readyCallbacks), Some(error))
      ensures ready == old(ready) && sent == old(sent) && spoken == old(spoken)
    {
      ExecuteReadyCallbacks(Some(error));
    }

    /**
     * `speak(text, options, callback)`, with the worker's answer to the
     * `synthesize` request given as `chunks`: before the worker is ready the
     * callback gets `null` and nothing is sent; otherwise the voice, rate and
     * pitch are set, the text is sent, and the callback gets the processed
     * buffer.
     */
    method Speak(text: string, options: SpeakOptions, chunks: seq<seq<real>>)
      modifies this
      ensures !ready ==> spoken == old(spoken) + [None] && sent == old(sent)
      ensures ready ==>
        var p := ResolveSpeakOptions(options, settings);
        && sent == old(sent) + [SetVoice(p.voice), SetRate(p.rate), SetPitch(p.pitch), Synthesize(text)]
        && spoken == old(spoken) + [Some(SpeechOutput(chunks, p.enhance, p.volume))]
      ensures ready == old(ready) && readyCallbacks == old(readyCallbacks) && readyCalls == old(readyCalls)
    {
      if !ready {
        spoken := spoken + [None];
        return;
      }
      var p := ResolveSpeakOptions(options, settings);
      sent := sent + [SetVoice(p.voice), SetRate(p.rate), SetPitch(p.pitch), Synthesize(text)];
      var audioData := FinishSynthesis(chunks, p.enhance, p.volume);
      spoken := spoken + [Some(audioData)];
    }
  }
}

/**
 * `PushAudioNode` (js/demo.js): a streaming node that queues pushed sample
 * chunks and copies them into the output buffer of a script processor, one
 * audio-processing event at a time, while firing callbacks registered for
 * playback timestamps.
 *
 * The Web Audio objects are abstract: a destination is an identifier, the
 * script processor is its bound handler (`handlerBound`) and the
 * destinations it is connected to (`attached`), and an event's output
 * buffer is an array. The start, end and track callbacks are recorded in
 * order in `events` instead of being called.
 */
module PushAudio {
  import opened Samples
  import opened Wrappers

  /** The identity of a registered track callback. */
  type CallbackId = nat

  /** An audio destination, such as an `AudioContext`'s output. */
  type Destination = nat

  /** One entry of the `track_callbacks` map: a timestamp and its callbacks in registration order. */
  datatype TrackEntry = TrackEntry(timestamp: real, callbacks: seq<CallbackId>)

  /** A callback the node called: `start_callback()`, a track callback, or `end_callback(elapsed)`. */
  datatype NodeEvent = Started | TrackFired(callback: CallbackId) | Ended(elapsed: real)

  /** How `push` returns: normally, or by one of its two `throw`s. */
  datatype PushOutcome = Pushed | ClosedError | NoDestinationError

  const DefaultBufferSize: nat := 4096

  /** `buffer_size || 4096`: an absent or zero size falls back to 4096. */
  function EffectiveBufferSize(requested: Option<nat>): (n: nat)
    ensures n > 0
    ensures requested.Some? && requested.value > 0 ==> n == requested.value
    ensures requested == None || requested == Some(0) ==> n == DefaultBufferSize
  {
    var r := requested.GetOr(0);
    if r == 0 then DefaultBufferSize else r
  }

  // ---------------------------------------------------------------------
  // The track-callback registry, in the insertion order of a JavaScript Map.

  function Keys(r: seq<TrackEntry>): (ks: seq<real>)
    ensures |ks| == |r|
  {
    seq(|r|, i requires 0 <= i < |r| => r[i].timestamp)
  }

  /** No timestamp has two entries, as in a Map. */
  predicate DistinctKeys(r: seq<TrackEntry>) {
    forall i, j :: 0 <= i < j < |r| ==> r[i].timestamp != r[j].timestamp
  }

  /** The callbacks registered under `ts`, if it has an entry. */
  function Lookup(r: seq<TrackEntry>, ts: real): Option<seq<CallbackId>> {
    if r == [] then None
    else if r[0].timestamp == ts then Some(r[0].callbacks)
    else Lookup(r[1..], ts)
  }

  /**
   * `get(ts) || []`, `push(cb)`, `set(ts, callbacks)`: an existing entry
   * keeps its place and gains `cb` at its end; a new key is appended.
   */
  function Register(r: seq<TrackEntry>, ts: real, cb: CallbackId): seq<TrackEntry> {
    if r == [] then [TrackEntry(ts, [cb])]
    else if r[0].timestamp == ts then [r[0].(callbacks := r[0].callbacks + [cb])] + r[1..]
    else [r[0]] + Register(r[1..], ts, cb)
  }

  /** After registering, `ts` holds its earlier callbacks (none if it was absent) followed by `cb`. */
  lemma {:induction false} RegisterLookup(r: seq<TrackEntry>, ts: real, cb: CallbackId)
    ensures Lookup(Register(r, ts, cb), ts) == Some(Lookup(r, ts).GetOr([]) + [cb])
  {
    if r != [] {
      var r' := Register(r, ts, cb);
      if r[0].timestamp != ts {
        RegisterLookup(r[1..], ts, cb);
        assert r'[0] == r[0] && r'[1..] == Register(r[1..], ts, cb);
      } else {
        assert r'[0] == r[0].(callbacks := r[0].callbacks + [cb]);
        assert Lookup(r', ts) == Some(r[0].callbacks + [cb]);
      }
    } else {
      assert Register(r, ts, cb)[0] == TrackEntry(ts, [cb]);
      assert Lookup(r, ts).GetOr([]) + [cb] == [cb];
    }
  }

  /** Registering under `ts` changes no other timestamp's callbacks. */
  lemma {:induction false} RegisterOthers(r: seq<TrackEntry>, ts: real, cb: CallbackId, other: real)
    requires other != ts
    ensures Lookup(Register(r, ts, cb), other) == Lookup(r, other)
  {
    if r != [] {
      var r' := Register(r, ts, cb);
      if r[0].timestamp != ts {
        RegisterOthers(r[1..], ts, cb, other);
        assert r'[0] == r[0] && r'[1..] == Register(r[1..], ts, cb);
      } else {
        assert r'[0].timestamp == ts && r'[1..] == r[1..];
      }
    }
  }

  /** The key order is kept; a new timestamp goes last. */
  lemma {:induction false} RegisterKeys(r: seq<TrackEntry>, ts: real, cb: CallbackId)
    ensures Keys(Register(r, ts, cb)) == if ts in Keys(r) then Keys(r) else Keys(r) + [ts]
  {
    if r != [] {
      assert Keys(r) == [r[0].timestamp] + Keys(r[1..]);
      if r[0].timestamp != ts {
        RegisterKeys(r[1..], ts, cb);
        assert Keys(Register(r, ts, cb)) == [r[0].timestamp] + Keys(Register(r[1..], ts, cb));
      } else {
        assert Keys(Register(r, ts, cb)) == [r[0].timestamp] + Keys(r[1..]);
      }
    }
  }

  lemma DistinctKeysByKeys(r: seq<TrackEntry>)
    ensures DistinctKeys(r) <==> forall i, j :: 0 <= i < j < |r| ==> Keys(r)[i] != Keys(r)[j]
  {
    assert forall i :: 0 <= i < |r| ==> Keys(r)[i] == r[i].timestamp;
  }

  /** Registering never creates a second entry for a timestamp. */
  lemma RegisterDistinct(r: seq<TrackEntry>, ts: real, cb: CallbackId)
    requires DistinctKeys(r)
    ensures DistinctKeys(Register(r, ts, cb))
  {
    RegisterKeys(r, ts, cb);
    DistinctKeysByKeys(r);
    DistinctKeysByKeys(Register(r, ts, cb));
  }

  // ---------------------------------------------------------------------
  // The registry sweep of `handleEvent`.

  /** `timestamp < currentTime`: deleted without firing. */
  predicate Stale(ts: real, now: real) {
    ts < now
  }

  /** `currentTime <= timestamp < currentTime + playbackDuration`: fired, then deleted. */
  predicate InWindow(ts: real, now: real, dur: real) {
    !(ts < now) && ts < now + dur
  }

  /** Neither: the entry is left as it is. */
  predicate Future(ts: real, now: real, dur: real) {
    !(ts < now) && !(ts < now + dur)
  }

  /** The events of calling `callbacks` in order. */
  function CallbackEvents(callbacks: seq<CallbackId>): (es: seq<NodeEvent>)
    ensures |es| == |callbacks|
  {
    seq(|callbacks|, i requires 0 <= i < |callbacks| => TrackFired(callbacks[i]))
  }

  /** The entries the sweep leaves in place, in their order. */
  function Kept(r: seq<TrackEntry>, now: real, dur: real): seq<TrackEntry> {
    if r == [] then []
    else
      var e := r[|r| - 1];
      Kept(r[..|r| - 1], now, dur) + (if Future(e.timestamp, now, dur) then [e] else [])
  }

  /** The callbacks the sweep fires, entry by entry in registry order. */
  function Firings(r: seq<TrackEntry>, now: real, dur: real): seq<NodeEvent> {
    if r == [] then []
    else
      var e := r[|r| - 1];
      Firings(r[..|r| - 1], now, dur) + (if InWindow(e.timestamp, now, dur) then CallbackEvents(e.callbacks) else [])
  }

  lemma {:induction false} KeptConcat(a: seq<TrackEntry>, b: seq<TrackEntry>, now: real, dur: real)
    ensures Kept(a + b, now, dur) == Kept(a, now, dur) + Kept(b, now, dur)
    decreases |b|
  {
    if b == [] {
      assert a + b == a;
    } else {
      assert (a + b)[..|a + b| - 1] == a + b[..|b| - 1];
      KeptConcat(a, b[..|b| - 1], now, dur);
    }
  }

  lemma {:induction false} FiringsConcat(a: seq<TrackEntry>, b: seq<TrackEntry>, now: real, dur: real)
    ensures Firings(a + b, now, dur) == Firings(a, now, dur) + Firings(b, now, dur)
    decreases |b|
  {
    if b == [] {
      assert a + b == a;
    } else {
      assert (a + b)[..|a + b| - 1] == a + b[..|b| - 1];
      FiringsConcat(a, b[..|b| - 1], now, dur);
    }
  }

  /**
   * The sweep treats entries one at a time in registry order: a stale entry
   * disappears silently, an entry in the window fires all its callbacks in
   * their order and disappears, and a future entry stays.
   */
  lemma SweepEntry(a: seq<TrackEntry>, e: TrackEntry, b: seq<TrackEntry>, now: real, dur: real)
    ensures Kept(a + [e] + b, now, dur)
         == Kept(a, now, dur) + (if Future(e.timestamp, now, dur) then [e] else []) + Kept(b, now, dur)
    ensures Firings(a + [e] + b, now, dur)
         == Firings(a, now, dur) + (if InWindow(e.timestamp, now, dur) then CallbackEvents(e.callbacks) else []) + Firings(b, now, dur)
  {
    KeptConcat(a + [e], b, now, dur);
    KeptConcat(a, [e], now, dur);
    FiringsConcat(a + [e], b, now, dur);
    FiringsConcat(a, [e], now, dur);
    assert [e][..0] == [];
  }

  /** The sweep of one more entry of a registry prefix. */
  lemma SweepPrefix(r: seq<TrackEntry>, i: nat, now: real, dur: real)
    requires i < |r|
    ensures Kept(r[..i + 1], now, dur) == Kept(r[..i], now, dur) + (if Future(r[i].timestamp, now, dur) then [r[i]] else [])
    ensures Firings(r[..i + 1], now, dur)
         == Firings(r[..i], now, dur) + (if InWindow(r[i].timestamp, now, dur) then CallbackEvents(r[i].callbacks) else [])
  {
    assert r[..i + 1][..i] == r[..i];
  }

  /** An entry survives the sweep exactly when it is in the registry and its timestamp is in the future. */
  lemma {:induction false} KeptMembers(r: seq<TrackEntry>, now: real, dur: real)
    ensures forall e :: e in Kept(r, now, dur) <==> e in r && Future(e.timestamp, now, dur)
  {
    if r != [] {
      KeptMembers(r[..|r| - 1], now, dur);
      assert r == r[..|r| - 1] + [r[|r| - 1]];
    }
  }

  /** After the sweep a timestamp keeps its callbacks if it is in the future and has none otherwise. */
  lemma {:induction false} KeptLookup(r: seq<TrackEntry>, now: real, dur: real, ts: real)
    ensures Lookup(Kept(r, now, dur), ts) == if Future(ts, now, dur) then Lookup(r, ts) else None
    decreases |r|
  {
    if r != [] {
      var e := r[0];
      var rest := r[1..];
      assert r == [] + [e] + rest;
      SweepEntry([], e, rest, now, dur);
      assert Kept([], now, dur) == [];
      KeptLookup(rest, now, dur, ts);
      if Future(e.timestamp, now, dur) {
        assert Kept(r, now, dur) == [e] + Kept(rest, now, dur);
      } else {
        assert Kept(r, now, dur) == Kept(rest, now, dur);
      }
    }
  }

  /** A callback is fired exactly when it is registered under a timestamp in the window. */
  lemma {:induction false} FiringsMembers(r: seq<TrackEntry>, now: real, dur: real)
    ensures forall ev :: ev in Firings(r, now, dur) ==> ev.TrackFired?
    ensures forall cb :: TrackFired(cb) in Firings(r, now, dur) <==>
                         exists e :: e in r && InWindow(e.timestamp, now, dur) && cb in e.callbacks
  {
    if r != [] {
      var e := r[|r| - 1];
      FiringsMembers(r[..|r| - 1], now, dur);
      assert r == r[..|r| - 1] + [e];
      forall cb | cb in e.callbacks
        ensures TrackFired(cb) in CallbackEvents(e.callbacks)
      {
        var i :| 0 <= i < |e.callbacks| && e.callbacks[i] == cb;
        assert CallbackEvents(e.callbacks)[i] == TrackFired(cb);
      }
    }
  }

  /** The sweep keeps distinct keys distinct. */
  lemma {:induction false} KeptDistinct(r: seq<TrackEntry>, now: real, dur: real)
    requires DistinctKeys(r)
    ensures DistinctKeys(Kept(r, now, dur))
  {
    if r != [] {
      var init := r[..|r| - 1];
      var e := r[|r| - 1];
      KeptDistinct(init, now, dur);
      KeptMembers(init, now, dur);
      var k := Kept(init, now, dur);
      if Future(e.timestamp, now, dur) {
        forall i | 0 <= i < |k|
          ensures k[i].timestamp != e.timestamp
        {
          assert k[i] in init;
        }
      }
    }
  }

  /** Sweeping again at the same time keeps everything and fires nothing. */
  lemma SweepIdempotent(r: seq<TrackEntry>, now: real, dur: real)
    ensures Kept(Kept(r, now, dur), now, dur) == Kept(r, now, dur)
    ensures Firings(Kept(r, now, dur), now, dur) == []
  {
    KeptMembers(r, now, dur);
    AllFuture(Kept(r, now, dur), now, dur);
  }

  /** A registry of future entries only is kept whole and fires nothing. */
  lemma {:induction false} AllFuture(r: seq<TrackEntry>, now: real, dur: real)
    requires forall e :: e in r ==> Future(e.timestamp, now, dur)
    ensures Kept(r, now, dur) == r && Firings(r, now, dur) == []
  {
    if r != [] {
      AllFuture(r[..|r| - 1], now, dur);
      assert r == r[..|r| - 1] + [r[|r| - 1]];
    }
  }

  // ---------------------------------------------------------------------
  // The drain loop of `handleEvent`.

  /** The queue after copying up to `room` samples out of its front. */
  function DrainedQueue(q: seq<seq<real>>, room: nat): seq<seq<real>> {
    if q == [] || room == 0 then q
    else if |q[0]| <= room then DrainedQueue(q[1..], room - |q[0]|)
    else [q[0][room..]] + q[1..]
  }

  /** The first `n` samples of a queue come from its front chunk when it holds that many. */
  lemma FlattenFront(q: seq<seq<real>>, n: nat)
    requires q != [] && n <= |q[0]|
    ensures Flatten(q)[..n] == q[0][..n]
    ensures Flatten(q)[n..] == q[0][n..] + Flatten(q[1..])
  {
    assert Flatten(q) == q[0] + Flatten(q[1..]);
  }

  /** The drained queue holds exactly the samples not copied: all but the first `min(room, total)`. */
  lemma {:induction false} DrainedFlatten(q: seq<seq<real>>, room: nat)
    ensures Flatten(DrainedQueue(q, room)) == Flatten(q)[Min(room, |Flatten(q)|)..]
    decreases |q|
  {
    if q != [] && room != 0 {
      if |q[0]| <= room {
        var all := Flatten(q);
        var rest := Flatten(q[1..]);
        var n := |q[0]|;
        DrainedFlatten(q[1..], room - n);
        FlattenFront(q, n);
        assert q[0][n..] == [];
        assert all[n..] == rest;
        var m := Min(room - n, |rest|);
        assert Min(room, |all|) == n + m;
        SliceTwice(all, n, m);
      } else {
        FlattenFront(q, room);
        assert Flatten([q[0][room..]] + q[1..]) == q[0][room..] + Flatten(q[1..]);
      }
    }
  }

  /** Dropping `a` elements and then `b` more drops `a + b`. */
  lemma SliceTwice(s: seq<real>, a: nat, b: nat)
    requires a + b <= |s|
    ensures s[a..][b..] == s[a + b..]
  {
  }

  /**
   * A queue holding fewer samples than the room is emptied; an emptied queue
   * held at most the room.
   */
  lemma {:induction false} DrainedEmpty(q: seq<seq<real>>, room: nat)
    ensures TotalLength(q) < room ==> DrainedQueue(q, room) == []
    ensures DrainedQueue(q, room) == [] ==> TotalLength(q) <= room
    decreases |q|
  {
    if q != [] && room != 0 && |q[0]| <= room {
      DrainedEmpty(q[1..], room - |q[0]|);
    }
  }

  /** The start callback's call, made on the event that starts the clock. */
  function StartEvents(starting: bool, hasStartCallback: bool): seq<NodeEvent>
  {
    if starting && hasStartCallback then [Started] else []
  }

  /** The end callback's call with the elapsed time, made once a closed node has drained. */
  function EndEvents(done: bool, hasEndCallback: bool, elapsed: real): seq<NodeEvent>
  {
    if done && hasEndCallback then [Ended(elapsed)] else []
  }

  // ---------------------------------------------------------------------
  // The node.

  class PushAudioNode {
    /** `context.sampleRate`. */
    const sampleRate: real
    /** `buffer_size || 4096`, also the script processor's and every output buffer's size. */
    const bufferSize: nat
    const hasStartCallback: bool
    const hasEndCallback: bool

    var samplesQueue: seq<seq<real>>
    var connected: bool
    var sinks: seq<Destination>
    var startTime: real
    var closed: bool
    var trackCallbacks: seq<TrackEntry>
    /** Whether `scriptNode.onaudioprocess` is bound to `handleEvent`. */
    var handlerBound: bool
    /** The destinations `scriptNode` is connected to. */
    var attached: seq<Destination>
    /** The callbacks called so far, in order. */
    var events: seq<NodeEvent>

    ghost predicate Valid()
      reads this
    {
      && bufferSize > 0
      && sampleRate > 0.0
      && DistinctKeys(trackCallbacks)
      && handlerBound == connected
      && (!connected ==> attached == [])
      && (connected ==> attached <= sinks)
    }

    constructor (sampleRate: real, hasStartCallback: bool, hasEndCallback: bool, requestedBufferSize: Option<nat>)
      requires sampleRate > 0.0
      ensures Valid()
      ensures this.sampleRate == sampleRate && bufferSize == EffectiveBufferSize(requestedBufferSize)
      ensures this.hasStartCallback == hasStartCallback && this.hasEndCallback == hasEndCallback
      ensures samplesQueue == [] && !connected && sinks == [] && startTime == 0.0 && !closed
      ensures trackCallbacks == [] && !handlerBound && attached == [] && events == []
    {
      this.sampleRate := sampleRate;
      this.hasStartCallback := hasStartCallback;
      this.hasEndCallback := hasEndCallback;
      bufferSize := EffectiveBufferSize(requestedBufferSize);
      samplesQueue := [];
      connected := false;
      sinks := [];
      startTime := 0.0;
      closed := false;
      trackCallbacks := [];
      handlerBound := false;
      attached := [];
      events := [];
    }

    /**
     * `push`: a closed node throws and changes nothing. Otherwise the chunk
     * is queued first; then an unconnected node with no destination throws
     * (keeping the chunk), and an unconnected one with destinations connects.
     */
    method Push(chunk: seq<real>) returns (outcome: PushOutcome)
      requires Valid()
      modifies this
      ensures Valid()
      ensures old(closed) ==> outcome == ClosedError && unchanged(this)
      ensures !old(closed) ==> samplesQueue == old(samplesQueue) + [chunk]
      ensures !old(closed) && !old(connected) && old(sinks) == [] ==>
        outcome == NoDestinationError && !connected && !handlerBound && attached == []
      ensures !old(closed) && old(connected) ==>
        outcome == Pushed && connected && handlerBound && attached == old(attached)
      ensures !old(closed) && !old(connected) && old(sinks) != [] ==>
        outcome == Pushed && connected && handlerBound && attached == old(sinks)
      ensures sinks == old(sinks) && closed == old(closed) && startTime == old(startTime)
      ensures trackCallbacks == old(trackCallbacks) && events == old(events)
    {
      if closed {
        return ClosedError;
      }
      samplesQueue := samplesQueue + [chunk];
      if !connected {
        if |sinks| == 0 {
          return NoDestinationError;
        }
        DoConnect();
      }
      outcome := Pushed;
    }

    /** `close`: no more chunks are accepted; queued ones still play. */
    method Close()
      requires Valid()
      modifies this
      ensures Valid()
      ensures closed
      ensures samplesQueue == old(samplesQueue) && connected == old(connected) && sinks == old(sinks)
      ensures startTime == old(startTime) && trackCallbacks == old(trackCallbacks)
      ensures handlerBound == old(handlerBound) && attached == old(attached) && events == old(events)
    {
      closed := true;
    }

    /**
     * `connect`: the destination is always recorded; the node connects only
     * when something is queued. A node that is already connected does not
     * attach the new destination.
     */
    method Connect(dest: Destination)
      requires Valid()
      modifies this
      ensures Valid()
      ensures sinks == old(sinks) + [dest]
      ensures |old(samplesQueue)| > 0 && !old(connected) ==> connected && handlerBound && attached == sinks
      ensures old(connected) || |old(samplesQueue)| == 0 ==>
        connected == old(connected) && handlerBound == old(handlerBound) && attached == old(attached)
      ensures samplesQueue == old(samplesQueue) && closed == old(closed) && startTime == old(startTime)
      ensures trackCallbacks == old(trackCallbacks) && events == old(events)
    {
      sinks := sinks + [dest];
      if |samplesQueue| > 0 {
        DoConnect();
      }
    }

    /**
     * `_do_connect`: the first call connects the script processor to every
     * recorded destination and binds the handler; later calls, while
     * connected, change nothing.
     */
    method DoConnect()
      requires Valid()
      modifies this
      ensures Valid()
      ensures old(connected) ==> unchanged(this)
      ensures !old(connected) ==> connected && handlerBound && attached == old(sinks)
      ensures samplesQueue == old(samplesQueue) && sinks == old(sinks) && closed == old(closed)
      ensures startTime == old(startTime) && trackCallbacks == old(trackCallbacks) && events == old(events)
    {
      if connected {
        return;
      }
      connected := true;
      for i := 0 to |sinks|
        invariant samplesQueue == old(samplesQueue) && sinks == old(sinks) && closed == old(closed)
        invariant attached == sinks[..i]
        invariant startTime == old(startTime) && trackCallbacks == old(trackCallbacks) && events == old(events)
        invariant connected
      {
        attached := attached + [sinks[i]];
      }
      assert sinks[..|sinks|] == sinks;
      handlerBound := true;
    }

    /** `disconnect`: unbinds the handler and detaches every destination; the queue and the registry stay. */
    method Disconnect()
      requires Valid()
      modifies this
      ensures Valid()
      ensures !connected && !handlerBound && attached == []
      ensures samplesQueue == old(samplesQueue) && sinks == old(sinks) && closed == old(closed)
      ensures startTime == old(startTime) && trackCallbacks == old(trackCallbacks) && events == old(events)
    {
      handlerBound := false;
      attached := [];
      connected := false;
    }

    /** `addTrackCallback`: `cb` joins the end of the list for `timestamp`. */
    method AddTrackCallback(timestamp: real, cb: CallbackId)
      requires Valid()
      modifies this
      ensures Valid()
      ensures trackCallbacks == Register(old(trackCallbacks), timestamp, cb)
      ensures samplesQueue == old(samplesQueue) && connected == old(connected) && sinks == old(sinks)
      ensures startTime == old(startTime) && closed == old(closed)
      ensures handlerBound == old(handlerBound) && attached == old(attached) && events == old(events)
    {
      RegisterDistinct(trackCallbacks, timestamp, cb);
      trackCallbacks := Register(trackCallbacks, timestamp, cb);
    }

    /** The `for…of` loop over `track_callbacks`, with its deletions and calls. */
    method SweepTrackCallbacks(now: real, dur: real)
      requires Valid()
      modifies this
      ensures Valid()
      ensures trackCallbacks == Kept(old(trackCallbacks), now, dur)
      ensures events == old(events) + Firings(old(trackCallbacks), now, dur)
      ensures samplesQueue == old(samplesQueue) && connected == old(connected) && sinks == old(sinks)
      ensures startTime == old(startTime) && closed == old(closed)
      ensures handlerBound == old(handlerBound) && attached == old(attached)
    {
      ghost var r := trackCallbacks;
      var kept: seq<TrackEntry> := [];
      for i := 0 to |trackCallbacks|
        invariant trackCallbacks == r
        invariant kept == Kept(r[..i], now, dur)
        invariant events == old(events) + Firings(r[..i], now, dur)
        invariant samplesQueue == old(samplesQueue) && connected == old(connected) && sinks == old(sinks)
        invariant startTime == old(startTime) && closed == old(closed)
        invariant handlerBound == old(handlerBound) && attached == old(attached)
      {
        var entry := trackCallbacks[i];
        SweepPrefix(r, i, now, dur);
        if entry.timestamp < now {
        } else if entry.timestamp < now + dur {
          FireCallbacks(entry.callbacks);
        } else {
          kept := kept + [entry];
        }
      }
      assert r[..|r|] == r;
      KeptDistinct(r, now, dur);
      trackCallbacks := kept;
    }

    /** Calls the callbacks of one entry in the window, in their registration order. */
    method FireCallbacks(callbacks: seq<CallbackId>)
      modifies this
      ensures events == old(events) + CallbackEvents(callbacks)
      ensures samplesQueue == old(samplesQueue) && connected == old(connected) && sinks == old(sinks)
      ensures startTime == old(startTime) && closed == old(closed) && trackCallbacks == old(trackCallbacks)
      ensures handlerBound == old(handlerBound) && attached == old(attached)
    {
      for j := 0 to |callbacks|
        invariant events == old(events) + CallbackEvents(callbacks[..j])
        invariant samplesQueue == old(samplesQueue) && connected == old(connected) && sinks == old(sinks)
        invariant startTime == old(startTime) && closed == old(closed) && trackCallbacks == old(trackCallbacks)
        invariant handlerBound == old(handlerBound) && attached == old(attached)
      {
        assert callbacks[..j + 1] == callbacks[..j] + [callbacks[j]];
        events := events + [TrackFired(callbacks[j])];
      }
      assert callbacks[..|callbacks|] == callbacks;
    }

    /**
     * The `while` loop of `handleEvent`: copies the front of the queue into
     * `out` from offset 0 until the buffer is full or the queue is empty,
     * shortening the front chunk or shifting it off.
     */
    method DrainInto(out: array<real>) returns (offset: nat)
      requires Valid() && out.Length == bufferSize
      modifies this, out
      ensures Valid()
      ensures offset == Min(bufferSize, |Flatten(old(samplesQueue))|)
      ensures samplesQueue == DrainedQueue(old(samplesQueue), bufferSize)
      ensures forall k :: 0 <= k < offset ==> out[k] == Flatten(old(samplesQueue))[k]
      ensures forall k :: offset <= k < out.Length ==> out[k] == old(out[k])
      ensures connected == old(connected) && sinks == old(sinks) && startTime == old(startTime)
      ensures closed == old(closed) && trackCallbacks == old(trackCallbacks)
      ensures handlerBound == old(handlerBound) && attached == old(attached) && events == old(events)
    {
      samplesQueue, offset := DrainQueue(samplesQueue, out);
    }

    /** The first lines of `handleEvent`: a node whose `startTime` is still 0 starts its clock. */
    method StartClock(playbackTime: real)
      requires Valid()
      modifies this
      ensures Valid()
      ensures startTime == if old(startTime) == 0.0 then playbackTime else old(startTime)
      ensures events == old(events) + StartEvents(old(startTime) == 0.0, hasStartCallback)
      ensures samplesQueue == old(samplesQueue) && connected == old(connected) && sinks == old(sinks)
      ensures closed == old(closed) && trackCallbacks == old(trackCallbacks)
      ensures handlerBound == old(handlerBound) && attached == old(attached)
    {
      if startTime == 0.0 {
        startTime := playbackTime;
        if hasStartCallback {
          events := events + [Started];
        }
      }
    }

    /** The last lines of `handleEvent`: a closed node with nothing left to play ends and disconnects. */
    method EndIfDrained(playbackTime: real)
      requires Valid()
      modifies this
      ensures Valid()
      ensures var done := samplesQueue == [] && closed;
        events == old(events) + EndEvents(done, hasEndCallback, playbackTime - startTime)
      ensures samplesQueue == [] && closed ==> !connected && !handlerBound && attached == []
      ensures !(samplesQueue == [] && closed) ==>
        connected == old(connected) && handlerBound == old(handlerBound) && attached == old(attached)
      ensures samplesQueue == old(samplesQueue) && sinks == old(sinks) && closed == old(closed)
      ensures startTime == old(startTime) && trackCallbacks == old(trackCallbacks)
    {
      if |samplesQueue| == 0 && closed {
        if hasEndCallback {
          events := events + [Ended(playbackTime - startTime)];
        }
        Disconnect();
      }
    }

    /**
     * `handleEvent`: start the clock on the first event, sweep the registry
     * over the window of this buffer, drain the queue into `out`, and end
     * the stream once a closed node has nothing left to play.
     */
    method HandleEvent(playbackTime: real, out: array<real>)
      requires Valid() && out.Length == bufferSize
      modifies this, out
      ensures Valid()
      ensures startTime == if old(startTime) == 0.0 then playbackTime else old(startTime)
      ensures trackCallbacks == Kept(old(trackCallbacks), playbackTime - startTime, bufferSize as real / sampleRate)
      ensures events == old(events)
                        + StartEvents(old(startTime) == 0.0, hasStartCallback)
                        + Firings(old(trackCallbacks), playbackTime - startTime, bufferSize as real / sampleRate)
                        + EndEvents(samplesQueue == [] && closed, hasEndCallback, playbackTime - startTime)
      ensures samplesQueue == DrainedQueue(old(samplesQueue), bufferSize)
      ensures forall k :: 0 <= k < Min(bufferSize, |Flatten(old(samplesQueue))|) ==>
        out[k] == Flatten(old(samplesQueue))[k]
      ensures forall k :: Min(bufferSize, |Flatten(old(samplesQueue))|) <= k < out.Length ==>
        out[k] == old(out[k])
      ensures samplesQueue == [] && closed ==> !connected && !handlerBound && attached == []
      ensures !(samplesQueue == [] && closed) ==>
        connected == old(connected) && handlerBound == old(handlerBound) && attached == old(attached)
      ensures sinks == old(sinks) && closed == old(closed)
    {
      StartClock(playbackTime);
      var currentTime := playbackTime - startTime;
      var playbackDuration := bufferSize as real / sampleRate;
      SweepTrackCallbacks(currentTime, playbackDuration);
      var copied := DrainInto(out);
      EndIfDrained(playbackTime);
    }
  }

  /**
   * One turn of the drain loop, when the queue holds the samples of `all`
   * from `offset` on and `room` samples still fit: the part of the front
   * chunk that is copied is the next stretch of `all`, and the queue that is
   * left holds the rest of `all`, drains to the same queue and is smaller.
   */
  lemma DrainStep(all: seq<real>, q: seq<seq<real>>, offset: nat, room: nat)
    requires q != [] && room > 0
    requires offset <= |all| && Flatten(q) == all[offset..]
    ensures var n := Min(|q[0]|, room);
      var next := if |q[0][n..]| > 0 then q[0 := q[0][n..]] else q[1..];
      && offset + n <= |all|
      && q[0][..n] == all[offset..offset + n]
      && Flatten(next) == all[offset + n..]
      && DrainedQueue(next, room - n) == DrainedQueue(q, room)
      && |Flatten(next)| + |next| < |Flatten(q)| + |q|
  {
    var n := Min(|q[0]|, room);
    FlattenFront(q, n);
    assert all[offset..][..n] == all[offset..offset + n];
    assert all[offset..][n..] == all[offset + n..];
    if |q[0][n..]| > 0 {
      var next := q[0 := q[0][n..]];
      assert next == [q[0][n..]] + q[1..];
      assert next[1..] == q[1..];
    } else {
      assert q[0][n..] == [];
    }
  }

  /**
   * The `while` loop of `handleEvent` on the queue's value: copies the front
   * of the queue into `out` from offset 0 until `out` is full or the queue
   * is empty, shortening the front chunk or shifting it off.
   */
  method DrainQueue(q0: seq<seq<real>>, out: array<real>) returns (queue: seq<seq<real>>, offset: nat)
    modifies out
    ensures offset == Min(out.Length, |Flatten(q0)|)
    ensures queue == DrainedQueue(q0, out.Length)
    ensures forall k :: 0 <= k < offset ==> out[k] == Flatten(q0)[k]
    ensures forall k :: offset <= k < out.Length ==> out[k] == old(out[k])
  {
    ghost var all := Flatten(q0);
    queue := q0;
    offset := 0;
    while |queue| > 0 && offset < out.Length
      invariant offset <= out.Length && offset <= |all|
      invariant DrainedQueue(queue, out.Length - offset) == DrainedQueue(q0, out.Length)
      invariant Flatten(queue) == all[offset..]
      invariant forall k :: 0 <= k < offset ==> out[k] == all[k]
      invariant forall k :: offset <= k < out.Length ==> out[k] == old(out[k])
      decreases |Flatten(queue)| + |queue|
    {
      DrainStep(all, queue, offset, out.Length - offset);
      var chunk := queue[0];
      var toCopy := chunk[..Min(|chunk|, out.Length - offset)];
      CopyToChannel(out, toCopy, offset);
      offset := offset + |toCopy|;
      chunk := chunk[|toCopy|..];
      if |chunk| > 0 {
        queue := queue[0 := chunk];
      } else {
        queue := queue[1..];
      }
    }
  }

  /** Copies a stretch of samples into the output buffer's channel from `offset` on, as `handleEvent` does with `copyToChannel`. */
  method CopyToChannel(out: array<real>, src: seq<real>, offset: nat)
    requires offset + |src| <= out.Length
    modifies out
    ensures forall k :: 0 <= k < offset ==> out[k] == old(out[k])
    ensures forall k :: offset <= k < offset + |src| ==> out[k] == src[k - offset]
    ensures forall k :: offset + |src| <= k < out.Length ==> out[k] == old(out[k])
  {
    forall k | 0 <= k < |src| {
      out[offset + k] := src[k];
    }
  }
}

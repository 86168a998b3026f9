/** The narration engine of hooks/useNarration.ts: an optional audio context, a buffer cache keyed by
    narration identifier and an optional "current source", with single-flight playback.

    The browser's audio machinery is abstract here: a fetch delivers a `FetchOutcome`, decoding is a
    function supplied by the caller, and a buffer source is a fresh natural number. Everything the
    hook does to the outside world (fetching, stopping, resuming, starting, closing) is recorded in
    a ghost effect log, so that contracts can say what was done and in which order. */
module Narration {
  import opened Types
  import opened AudioAssets

  /** Decoded audio, ready to play; its contents do not matter to the engine. */
  datatype AudioBuffer = AudioBuffer(samples: seq<int>)

  /** `AudioContext.state`. */
  datatype ContextState = Suspended | Running | Closed

  /** A buffer source node: its identity and the buffer it plays. */
  datatype Source = Source(id: nat, buffer: AudioBuffer)

  /** What `fetch(url)` delivers: a rejected promise, or a response with its status and body. */
  datatype FetchOutcome =
    | NetworkFailure
    | Response(ok: bool, status: int, statusText: string, body: seq<bv8>)

  /** Why `loadAudioFile` threw. */
  datatype LoadError = FetchRejected | BadStatus(status: int, statusText: string) | DecodeRejected

  /** What the hook does to the outside world, in order. */
  datatype Effect =
    | Fetch(url: string)        // loadAudioFile starts a request
    | Stop(source: nat)         // source.stop() and source.disconnect()
    | Resume                    // audioContext.resume()
    | Start(source: nat)        // createBufferSource, connect and start
    | CloseContext              // audioContext.close()

  /** `loadAudioFile` once its awaits have settled: a rejected fetch and a non-ok response throw, and
      otherwise the result is whatever the decoder makes of the body. */
  function LoadAudioFile(fetched: FetchOutcome, decode: seq<bv8> -> Option<AudioBuffer>): (r: Result<AudioBuffer, LoadError>)
    ensures r.Ok? <==> fetched.Response? && fetched.ok && decode(fetched.body).Some?
    ensures r.Ok? ==> r.value == decode(fetched.body).value
    ensures fetched.NetworkFailure? ==> r == Err(FetchRejected)
    ensures fetched.Response? && !fetched.ok ==> r == Err(BadStatus(fetched.status, fetched.statusText))
  {
    match fetched
    case NetworkFailure => Err(FetchRejected)
    case Response(ok, status, statusText, body) =>
      if !ok then Err(BadStatus(status, statusText))
      else match decode(body)
        case None => Err(DecodeRejected)
        case Some(buffer) => Ok(buffer)
  }

  /** The continuation of one `speak(key)` call, held by the caller rather than by the hook:
      either `getAudioBuffer` is still waiting on a load of `url`, or it has produced its result. */
  datatype Pending =
    | Loading(key: AudioKey, url: string)
    | Resolved(key: AudioKey, buffer: Option<AudioBuffer>)

  /** A continuation the hook itself can produce: a load is only started for a key whose URL passed
      the usability test, and a buffer is only ever obtained for such a key (`UsableKeys` says which
      keys these are). */
  predicate WellFormed(p: Pending)
  {
    match p
    case Loading(key, url) => HasRecording(key) && url == AudioUrl(key)
    case Resolved(key, buffer) => buffer.Some? ==> HasRecording(key)
  }

  class NarrationEngine {
    var context: Option<ContextState>        // audioContextRef.current
    var cache: map<AudioKey, AudioBuffer>    // audioBufferCacheRef.current
    var current: Option<Source>              // currentSourceRef.current
    var nextSource: nat                      // identity of the next source to be created
    ghost var log: seq<Effect>               // everything done to the outside world
    ghost var started: set<nat>              // every source ever started
    ghost var silenced: set<nat>             // every source stopped or ended

    /** The identities of the current source: empty or a singleton. */
    ghost function CurrentIds(): set<nat>
      reads this
    {
      if current.Some? then {current.value.id} else {}
    }

    /** The engine's invariant. Single flight: the only source that was started and has been
        neither stopped nor ended is the current one. Only usable URLs ever reach the cache. */
    ghost predicate Valid()
      reads this
    {
      && started - silenced == CurrentIds()
      && silenced <= started
      && (forall id :: id in started ==> id < nextSource)
      && (forall k :: k in cache ==> HasRecording(k))
    }

    /** The refs as the first render creates them: no context, an empty cache, no source. */
    constructor ()
      ensures Valid()
      ensures context == None && cache == map[] && current == None
      ensures log == []
    {
      context := None;
      cache := map[];
      current := None;
      nextSource := 0;
      log := [];
      started := {};
      silenced := {};
    }

    /** The mount effect (hooks/useNarration.ts, line 24) stores a newly created audio context in whatever state the
        browser gives it. */
    method Mount(initial: ContextState)
      requires Valid()
      modifies this`context
      ensures Valid()
      ensures context == Some(initial)
    {
      context := Some(initial);
    }

    /** `speak(key)` up to its `await`: the synchronous part of `getAudioBuffer`. A cache hit is
        answered from the cache, with or without a context; otherwise a missing context or an
        unusable URL yields null, and only a usable URL starts a load. Nothing but the log changes. */
    method Speak(key: AudioKey) returns (p: Pending)
      requires Valid()
      modifies this`log
      ensures Valid() && WellFormed(p) && p.key == key
      ensures key in cache ==> p == Resolved(key, Some(cache[key])) && log == old(log)
      ensures key !in cache && context.None? ==> p == Resolved(key, None) && log == old(log)
      ensures key !in cache && context.Some? && !Usable(AudioUrl(key)) ==> p == Resolved(key, None) && log == old(log)
      ensures key !in cache && context.Some? && Usable(AudioUrl(key)) ==>
                p == Loading(key, AudioUrl(key)) && log == old(log) + [Fetch(AudioUrl(key))]
      ensures !Usable(AudioUrl(key)) ==> p == Resolved(key, None)
    {
      UsableKeys(key);
      if key in cache {
        return Resolved(key, Some(cache[key]));
      }
      if context.None? {
        return Resolved(key, None);
      }
      var url := AudioUrl(key);
      if !Usable(url) {
        return Resolved(key, None);
      }
      log := log + [Fetch(url)];
      p := Loading(key, url);
    }

    /** The rest of `getAudioBuffer` once the fetch and the decoder have delivered: `loadAudioFile`
        either yields a buffer, which is stored under exactly that key (replacing any buffer a
        concurrent load stored first) and returned, or throws, and then null is returned and the
        cache is left as it was. */
    method FinishLoad(p: Pending, fetched: FetchOutcome, decode: seq<bv8> -> Option<AudioBuffer>) returns (q: Pending)
      requires Valid() && WellFormed(p) && p.Loading?
      modifies this`cache
      ensures Valid() && WellFormed(q)
      ensures LoadAudioFile(fetched, decode).Ok? ==>
                && cache == old(cache)[p.key := LoadAudioFile(fetched, decode).value]
                && q == Resolved(p.key, Some(LoadAudioFile(fetched, decode).value))
      ensures LoadAudioFile(fetched, decode).Err? ==> cache == old(cache) && q == Resolved(p.key, None)
      ensures fetched.NetworkFailure? || (fetched.Response? && !fetched.ok) ==>
                cache == old(cache) && q == Resolved(p.key, None)
      ensures fetched.Response? && fetched.ok && decode(fetched.body).Some? ==>
                cache == old(cache)[p.key := decode(fetched.body).value]
    {
      match LoadAudioFile(fetched, decode)
      case Ok(buffer) =>
        cache := cache[p.key := buffer];
        q := Resolved(p.key, Some(buffer));
      case Err(_) =>
        q := Resolved(p.key, None);
    }

    /** `cancel`: stops and forgets the current source, if there is one; otherwise nothing happens. */
    method Cancel()
      requires Valid()
      modifies this`current, this`log, this`silenced
      ensures Valid()
      ensures current == None
      ensures old(current).None? ==> log == old(log) && silenced == old(silenced)
      ensures old(current).Some? ==>
                log == old(log) + [Stop(old(current).value.id)] && silenced == old(silenced) + {old(current).value.id}
    {
      if current.Some? {
        log := log + [Stop(current.value.id)];
        silenced := silenced + {current.value.id};
        current := None;
      }
    }

    /** `playAudioBuffer`: without a context nothing happens. Otherwise the current source is stopped
        first, a suspended context is asked to resume, and a fresh source for `buffer` is started and
        becomes the only current one. */
    method PlayAudioBuffer(buffer: AudioBuffer)
      requires Valid()
      modifies this`current, this`log, this`silenced, this`started, this`nextSource
      ensures Valid()
      ensures context == old(context) && cache == old(cache)
      ensures old(context).None? ==>
                current == old(current) && log == old(log) && started == old(started) && nextSource == old(nextSource)
      ensures old(context).Some? ==>
                && current == Some(Source(old(nextSource), buffer))
                && old(nextSource) !in old(started)
                && started - silenced == {old(nextSource)}
                && log == old(log)
                          + (if old(current).Some? then [Stop(old(current).value.id)] else [])
                          + (if old(context) == Some(Suspended) then [Resume] else [])
                          + [Start(old(nextSource))]
    {
      if context.None? {
        return;
      }
      Cancel();
      if context == Some(Suspended) {
        log := log + [Resume];
      }
      var source := Source(nextSource, buffer);
      log := log + [Start(source.id)];
      started := started + {source.id};
      nextSource := nextSource + 1;
      current := Some(source);
    }

    /** `speak(key)` after its `await`: plays the buffer if one was obtained, exactly as
        `playAudioBuffer` does. Nothing checks whether `cancel` or another `speak` ran in the meantime. */
    method SpeakResolved(p: Pending)
      requires Valid() && WellFormed(p) && p.Resolved?
      modifies this`current, this`log, this`silenced, this`started, this`nextSource
      ensures Valid()
      ensures context == old(context) && cache == old(cache)
      ensures p.buffer.None? || old(context).None? ==>
                current == old(current) && log == old(log) && started == old(started) && nextSource == old(nextSource)
      ensures p.buffer.Some? && old(context).Some? ==>
                && current == Some(Source(old(nextSource), p.buffer.value))
                && old(nextSource) !in old(started)
                && started - silenced == {old(nextSource)}
                && log == old(log)
                          + (if old(current).Some? then [Stop(old(current).value.id)] else [])
                          + (if old(context) == Some(Suspended) then [Resume] else [])
                          + [Start(old(nextSource))]
    {
      if p.buffer.Some? {
        PlayAudioBuffer(p.buffer.value);
      }
    }

    /** The `onended` callback of source `id`: it clears the current source only if that source is
        still `id`; a completion from a superseded source leaves the newer one alone. */
    method OnEnded(id: nat)
      requires Valid() && id < nextSource
      modifies this`current, this`silenced
      ensures Valid()
      ensures old(current).Some? && old(current).value.id == id ==> current == None
      ensures !(old(current).Some? && old(current).value.id == id) ==> current == old(current)
      ensures silenced == old(silenced) + ({id} * started)
    {
      if current.Some? && current.value.id == id {
        current := None;
      }
      silenced := silenced + ({id} * started);
    }

    /** The unmount cleanup (hooks/useNarration.ts, lines 47-54): cancel, then close the context unless it is closed already. */
    method Dispose()
      requires Valid()
      modifies this`current, this`log, this`silenced, this`context
      ensures Valid()
      ensures current == None && cache == old(cache)
      ensures old(context).None? ==> context == None
      ensures old(context).Some? ==> context == Some(Closed)
      ensures log == old(log)
                     + (if old(current).Some? then [Stop(old(current).value.id)] else [])
                     + (if old(context).Some? && old(context) != Some(Closed) then [CloseContext] else [])
    {
      Cancel();
      if context.Some? && context.value != Closed {
        context := Some(Closed);
        log := log + [CloseContext];
      }
    }
  }

  /** A `cancel` issued while a load is in flight does not stop the later playback: the continuation
      lives with the caller, and the hook keeps no record that would let it refuse. */
  method CancelDuringLoadStillPlays(e: NarrationEngine, body: seq<bv8>, buffer: AudioBuffer)
    requires e.Valid() && e.context.Some? && TemperatureTopic !in e.cache
    modifies e
    ensures e.Valid()
    ensures e.current.Some? && e.current.value.buffer == buffer
  {
    UsableKeys(TemperatureTopic);
    var p := e.Speak(TemperatureTopic);
    e.Cancel();
    var q := e.FinishLoad(p, Response(true, 200, "OK", body), _ => Some(buffer));
    e.SpeakResolved(q);
  }

  /** Two plays in a row: afterwards exactly one source is sounding, and it plays the second buffer. */
  method PlayTwice(e: NarrationEngine, a: AudioBuffer, b: AudioBuffer)
    requires e.Valid() && e.context.Some?
    modifies e
    ensures e.Valid()
    ensures e.current.Some? && e.current.value.buffer == b
    ensures e.started - e.silenced == {e.current.value.id}
  {
    e.PlayAudioBuffer(a);
    e.PlayAudioBuffer(b);
  }

  /** Two `speak` calls whose buffers resolve out of order: the first key misses the cache and
      starts a load, the second key hits it and plays at once, and when the first load resolves its
      clip replaces the second one. The later request does not win. */
  method SpeakOutOfOrder(e: NarrationEngine, body: seq<bv8>, first: AudioBuffer)
    requires e.Valid() && e.context.Some? && TemperatureTopic !in e.cache && MainScreenWelcome in e.cache
    modifies e
    ensures e.Valid()
    ensures e.current.Some? && e.current.value.buffer == first
    ensures e.started - e.silenced == {e.current.value.id}
  {
    UsableKeys(TemperatureTopic);
    var pa := e.Speak(TemperatureTopic);
    var pb := e.Speak(MainScreenWelcome);
    e.SpeakResolved(pb);
    var qa := e.FinishLoad(pa, Response(true, 200, "OK", body), _ => Some(first));
    e.SpeakResolved(qa);
  }

  /** A stale completion: the first source ends after the second has replaced it, and the second
      stays current. */
  method StaleCompletion(e: NarrationEngine, a: AudioBuffer, b: AudioBuffer)
    requires e.Valid() && e.context.Some?
    modifies e
    ensures e.Valid()
    ensures e.current.Some? && e.current.value.buffer == b
  {
    var first := e.nextSource;
    e.PlayAudioBuffer(a);
    e.PlayAudioBuffer(b);
    e.OnEnded(first);
  }
}

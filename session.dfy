/**
 * One GET request from start to finish, as the sequence of observable steps
 * each server takes: what it writes to the client, what it asks of the cache
 * and the detector, the commands it builds and the transcoder's lifetime.
 * Everything outside the process (the datagram the detector would see, the
 * clock, whether a write of the cache file succeeds, whether the transcoder
 * starts, what it outputs and whether it exits in time) is an `Env`.
 */
module Session {
  import opened Wrappers
  import opened Text
  import opened Rtp
  import opened Pipeline
  import opened Query
  import opened PayloadCache
  import opened Streaming

  type Header = (string, string)

  /** The headers of the backend's 200 response. */
  const BackendHeaders: seq<Header> := [
    ("Content-type", ContentType),
    ("Access-Control-Allow-Origin", "*"),
    ("Cache-Control", "no-cache, no-store, must-revalidate"),
    ("Pragma", "no-cache"),
    ("Expires", "0")
  ]

  /** The headers of the mjpeg server's 200 response. */
  const MjpegHeaders: seq<Header> := [("Content-type", ContentType)]

  datatype Event =
    | Started(headers: seq<Header>)                                // send_response(200), the headers, end_headers()
    | ErrorSent(code: int)                                         // send_error(code)
    | Resolved(payloadType: Result<int, DetectError>, detected: bool) // a payload-type lookup and whether the detector ran
    | Rejected(pt: int)                                            // build_gst_command raised ValueError
    | Invalidated(wrote: bool)                                     // invalidate_cache_entry
    | Built(command: seq<string>)                                  // build_gst_command returned
    | Spawned                                                      // subprocess.Popen returned
    | Streamed(delivered: seq<Chunk>, reason: StopReason)          // the relay thread, joined
    | Terminated                                                   // terminate() and wait(timeout=5)
    | Killed                                                       // kill() after wait timed out

  /** One call of the detector: what it would observe, the clock when its result is stored, how storing it ends. */
  datatype Attempt = Attempt(rx: Reception, now: int, save: SaveOutcome)

  datatype Env = Env(
    first: Attempt,                          // the first get_payload_type (mjpeg: its one detection)
    invalidateSave: SaveOutcome,             // the save_cache inside invalidate_cache_entry
    retry: Attempt,                          // the forced get_payload_type of the retry
    spawns: bool,                            // whether Popen succeeds
    output: seq<(Chunk, WriteOutcome)>,      // each read of the transcoder's stdout and how writing it ended
    exitsInGrace: bool                      // whether the transcoder exits within five seconds of terminate()
  )

  /**
   * The relay thread's view of the output: `stop_event` is set only after
   * `thread.join()`, in the `finally` block, so it is clear at every test,
   * and neither relay loop ever ends because of it.
   */
  function Unstopped(output: seq<(Chunk, WriteOutcome)>): (ticks: seq<Tick>)
    ensures |ticks| == |output|
    ensures forall i :: 0 <= i < |output| ==> !ticks[i].stopSet && (ticks[i].chunk, ticks[i].write) == output[i]
    ensures Relay(ticks, true).reason != Stopped && Relay(ticks, false).reason != Stopped
  {
    var ticks := seq(|output|, i requires 0 <= i < |output| => Tick(false, output[i].0, output[i].1));
    ClearFlagNeverStops(ticks, true);
    ClearFlagNeverStops(ticks, false);
    ticks
  }

  /** The `finally` block once a process exists. */
  function Cleanup(env: Env): seq<Event> {
    [Terminated] + if env.exitsInGrace then [] else [Killed]
  }

  /** From a built command to the end of the request; `backend` selects `stream_data` over `stream_mjpeg`. */
  function Launched(command: seq<string>, env: Env, backend: bool): seq<Event> {
    [Built(command)] +
    if env.spawns then
      var r := Relay(Unstopped(env.output), backend);
      [Spawned, Streamed(r.delivered, r.reason)] + Cleanup(env)
    else
      [ErrorSent(500)]
  }

  // ---------------------------------------------------------------------------
  // backend_server.py: _handle_stream_request and do_GET
  // ---------------------------------------------------------------------------

  /** What the client saw of one request, and the cache file afterwards. */
  datatype Outcome = Outcome(trace: seq<Event>, file: CacheFile)

  /** The cache file after a lookup: rewritten only when the lookup stored an entry. */
  function Stored(file: CacheFile, r: Resolution, save: SaveOutcome): CacheFile {
    if r.saved.Some? then AfterSave(file, r.saved.value, save) else file
  }

  /** The cache file after `invalidate_cache_entry`, which writes only when the key was present. */
  function Dropped(file: CacheFile, key: string, save: SaveOutcome): CacheFile {
    if key in Load(file) then AfterSave(file, Load(file) - {key}, save) else file
  }

  /**
   * What follows the forced lookup of the retry: a detection error ends in
   * the 500; otherwise the command is built once more and launched, and a
   * second rejection is not caught and ends in the 500 handler.
   */
  function Rebuild(req: StreamRequest, found: Result<int, DetectError>, env: Env, config: Config): seq<Event> {
    match found
    case Failure(_) => [ErrorSent(500)]
    case Success(pt) =>
      match BuildBackendCommand(pt, config, req.address, req.port)
      case Success(command) => Launched(command, env, true)
      case Failure(_) => [Rejected(pt), ErrorSent(500)]
  }

  /**
   * The retry after `build_gst_command` rejected `pt`: invalidate the entry,
   * detect once more with `force_detect=True`, then `Rebuild`.
   */
  function Retry(req: StreamRequest, pt: int, file: CacheFile, env: Env, config: Config): Outcome {
    var key := CacheKey(req.address, req.port);
    var file2 := Dropped(file, key, env.invalidateSave);
    var r := Resolve(Load(file2), key, true, env.retry.rx, env.retry.now);
    Outcome([Rejected(pt), Invalidated(key in Load(file)), Resolved(r.result, r.detected)] + Rebuild(req, r.result, env, config),
            Stored(file2, r, env.retry.save))
  }

  /** From the first `build_gst_command` on: launch, or retry once after a rejection. */
  function Proceed(req: StreamRequest, pt: int, file: CacheFile, env: Env, config: Config): Outcome {
    match BuildBackendCommand(pt, config, req.address, req.port)
    case Success(command) => Outcome(Launched(command, env, true), file)
    case Failure(_) => Retry(req, pt, file, env, config)
  }

  /** `_handle_stream_request('mjpeg')` once the endpoint has been validated. */
  function BackendSession(req: StreamRequest, file: CacheFile, env: Env, config: Config): Outcome {
    var r := Resolve(Load(file), CacheKey(req.address, req.port), req.forceDetect, env.first.rx, env.first.now);
    var file1 := Stored(file, r, env.first.save);
    var head := [Started(BackendHeaders), Resolved(r.result, r.detected)];
    match r.result
    case Failure(_) => Outcome(head + [ErrorSent(500)], file1)
    case Success(pt) =>
      var rest := Proceed(req, pt, file1, env, config);
      Outcome(head + rest.trace, rest.file)
  }

  /** The backend's `do_GET`. */
  function BackendGet(path: string, file: CacheFile, env: Env, config: Config): Outcome {
    match BackendRequest(path)
    case Failure(rejection) => Outcome([ErrorSent(rejection.Code())], file)
    case Success(req) => BackendSession(req, file, env, config)
  }

  /** Popen, the relay thread and the `finally` block. */
  method Launch(command: seq<string>, env: Env, backend: bool) returns (events: seq<Event>)
    ensures events == Launched(command, env, backend)
  {
    events := [Built(command)];
    if !env.spawns {
      events := events + [ErrorSent(500)];
      return;
    }
    events := events + [Spawned];
    var delivered, reason;
    if backend {
      delivered, reason := StreamData(Unstopped(env.output));
    } else {
      delivered, reason := StreamMjpeg(Unstopped(env.output));
    }
    events := events + [Streamed(delivered, reason), Terminated];
    if !env.exitsInGrace {
      events := events + [Killed];
    }
  }

  /** The second `build_gst_command` of the retry and what follows it. */
  method RebuildAfter(req: StreamRequest, found: Result<int, DetectError>, env: Env, config: Config) returns (events: seq<Event>)
    ensures events == Rebuild(req, found, env, config)
  {
    if found.Failure? {
      return [ErrorSent(500)];
    }
    var built := BuildBackendCommand(found.value, config, req.address, req.port);
    if built.Failure? {
      return [Rejected(found.value), ErrorSent(500)];
    }
    events := Launch(built.value, env, true);
  }

  /** The `except ValueError` branch of `_handle_stream_request`. */
  method RetryAfterRejection(store: CacheStore, req: StreamRequest, pt: int, env: Env, config: Config) returns (events: seq<Event>)
    modifies store
    ensures Outcome(events, store.file) == Retry(req, pt, old(store.file), env, config)
  {
    ghost var key := CacheKey(req.address, req.port);
    events := [Rejected(pt)];
    var wrote := store.InvalidateCacheEntry(req.address, req.port, env.invalidateSave);
    events := events + [Invalidated(wrote)];
    ghost var file2 := store.file;
    assert file2 == Dropped(old(store.file), key, env.invalidateSave);
    var found, detected, wroteRetry := store.GetPayloadType(req.address, req.port, true, env.retry.rx, env.retry.now, env.retry.save);
    events := events + [Resolved(found, detected)];
    assert store.file == Stored(file2, Resolve(Load(file2), key, true, env.retry.rx, env.retry.now), env.retry.save);
    var rest := RebuildAfter(req, found, env, config);
    events := events + rest;
  }

  /** The first `build_gst_command` and everything after it. */
  method ProceedWith(store: CacheStore, req: StreamRequest, pt: int, env: Env, config: Config) returns (events: seq<Event>)
    modifies store
    ensures Outcome(events, store.file) == Proceed(req, pt, old(store.file), env, config)
  {
    var built := BuildBackendCommand(pt, config, req.address, req.port);
    if built.Failure? {
      events := RetryAfterRejection(store, req, pt, env, config);
    } else {
      events := Launch(built.value, env, true);
    }
  }

  /** `_handle_stream_request` once validated, against the cache file held by `store`. */
  method HandleStreamRequest(store: CacheStore, req: StreamRequest, env: Env, config: Config) returns (trace: seq<Event>)
    modifies store
    ensures Outcome(trace, store.file) == BackendSession(req, old(store.file), env, config)
  {
    ghost var file0 := store.file;
    trace := [Started(BackendHeaders)];
    var pt, detected, wrote := store.GetPayloadType(req.address, req.port, req.forceDetect, env.first.rx, env.first.now, env.first.save);
    trace := trace + [Resolved(pt, detected)];
    assert store.file == Stored(file0, Resolve(Load(file0), CacheKey(req.address, req.port), req.forceDetect, env.first.rx, env.first.now), env.first.save);
    if pt.Failure? {
      trace := trace + [ErrorSent(500)];
      return;
    }
    var rest := ProceedWith(store, req, pt.value, env, config);
    trace := trace + rest;
  }

  /** The backend's `do_GET`. */
  method DoGet(store: CacheStore, path: string, env: Env, config: Config) returns (trace: seq<Event>)
    modifies store
    ensures Outcome(trace, store.file) == BackendGet(path, old(store.file), env, config)
  {
    var request := RouteBackend(path);
    match request {
      case Failure(rejection) =>
        trace := [ErrorSent(rejection.Code())];
      case Success(req) =>
        trace := HandleStreamRequest(store, req, env, config);
    }
  }

  // ---------------------------------------------------------------------------
  // mjpeg_server.py: do_GET
  // ---------------------------------------------------------------------------

  /** The mjpeg server after its 200, for a complete endpoint. */
  function MjpegStream(address: string, port: nat, env: Env): seq<Event> {
    match DetectMjpeg(env.first.rx)
    case Failure(e) => [Resolved(Failure(e), true), ErrorSent(500)]
    case Success(pt) =>
      [Resolved(Success(pt), true)] +
      match BuildMjpegCommand(pt, address, port)
      case Failure(_) => [Rejected(pt), ErrorSent(500)]
      case Success(command) => Launched(command, env, false)
  }

  /** The mjpeg server's `do_GET`; it keeps no cache. */
  function MjpegGet(path: string, env: Env): seq<Event> {
    match MjpegRequest(path)
    case Unrouted => [ErrorSent(404)]
    case UnparsablePort => [ErrorSent(400)]
    case Stream(address, port) =>
      [Started(MjpegHeaders)] +
      if address.None? || port.None? then
        // the unbound local variable raises NameError inside the try block
        [ErrorSent(500)]
      else
        MjpegStream(address.value, port.value, env)
  }

  method MjpegDoGet(path: string, env: Env) returns (trace: seq<Event>)
    ensures trace == MjpegGet(path, env)
  {
    var route := RouteMjpeg(path);
    match route {
      case Unrouted =>
        trace := [ErrorSent(404)];
      case UnparsablePort =>
        trace := [ErrorSent(400)];
      case Stream(address, port) =>
        trace := [Started(MjpegHeaders)];
        if address.None? || port.None? {
          trace := trace + [ErrorSent(500)];
          return;
        }
        var found := DetectMjpeg(env.first.rx);
        match found {
          case Failure(e) =>
            trace := trace + [Resolved(Failure(e), true), ErrorSent(500)];
          case Success(pt) =>
            trace := trace + [Resolved(Success(pt), true)];
            var built := BuildMjpegCommand(pt, address.value, port.value);
            match built {
              case Failure(_) =>
                trace := trace + [Rejected(pt), ErrorSent(500)];
              case Success(command) =>
                var launched := Launch(command, env, false);
                trace := trace + launched;
            }
        }
    }
  }

  // ---------------------------------------------------------------------------
  // Properties of whole requests
  // ---------------------------------------------------------------------------

  /** A step of the launch phase: Popen, the relay, the cleanup, or the 500 of a failed Popen. */
  predicate LaunchEvent(e: Event) {
    e.Spawned? || e.Streamed? || e.Terminated? || e.Killed? || e == ErrorSent(500)
  }

  /**
   * A built command is followed either by the 500 of a failed Popen or by
   * the relay and one cleanup: terminate() once, and kill() only when the
   * process outlives the grace period, as the last step. The relay never
   * ends at the stop flag.
   */
  predicate LaunchShaped(t: seq<Event>, env: Env) {
    && |t| >= 2 && t[0].Built?
    && (forall i :: 1 <= i < |t| ==> LaunchEvent(t[i]))
    && (!env.spawns ==> t == [t[0], ErrorSent(500)])
    && (env.spawns ==> |t| >= 4 && t[1] == Spawned && t[2].Streamed? && t[3] == Terminated)
    && (env.spawns ==> t[|t| - 1] == (if env.exitsInGrace then Terminated else Killed))
    && (forall i :: 0 <= i < |t| && t[i].ErrorSent? ==> i == |t| - 1 && t[i].code == 500)
    && (forall i :: 0 <= i < |t| && (t[i] == Spawned || t[i] == Terminated || t[i] == Killed) ==> env.spawns)
    && (forall i :: 0 <= i < |t| && t[i] == Killed ==> !env.exitsInGrace)
    && (forall i :: 0 <= i < |t| && t[i] == Terminated ==> i == 3)
    && (forall i :: 0 <= i < |t| && t[i] == Spawned ==> i == 1)
    && forall e :: e in t && e.Streamed? ==> e.reason != Stopped
  }

  lemma LaunchedShape(command: seq<string>, env: Env, backend: bool)
    ensures LaunchShaped(Launched(command, env, backend), env)
    ensures Launched(command, env, backend)[0] == Built(command)
  {
  }

  /** No process was started in this part of a trace. */
  predicate NoProcess(t: seq<Event>) {
    forall e :: e in t ==> !(e.Spawned? || e.Streamed? || e.Terminated? || e.Killed?)
  }

  /**
   * The `finally` block's promise: the transcoder is terminated exactly when
   * it was started and once, killed only when it outlives the grace period,
   * and that is the last thing that happens; the relay never ends at the
   * stop flag.
   */
  predicate CleanedUpOnce(t: seq<Event>, env: Env) {
    && (Spawned in t <==> Terminated in t)
    && (Killed in t <==> Spawned in t && !env.exitsInGrace)
    && (Spawned in t ==> t[|t| - 1] == (if env.exitsInGrace then Terminated else Killed))
    && (forall i, j :: 0 <= i < j < |t| && t[i] == Terminated ==> t[j] != Terminated)
    && (forall i, j :: 0 <= i < j < |t| && t[i] == Spawned ==> t[j] != Spawned)
    && (forall e :: e in t && e.Streamed? ==> e.reason != Stopped)
  }

  lemma NoProcessCleanedUp(t: seq<Event>, env: Env)
    requires NoProcess(t)
    ensures CleanedUpOnce(t, env)
  {
  }

  lemma CleanedUpAfter(a: seq<Event>, b: seq<Event>, env: Env)
    requires NoProcess(a) && CleanedUpOnce(b, env) && |b| > 0
    ensures CleanedUpOnce(a + b, env)
  {
    var t := a + b;
    forall i, j | 0 <= i < j < |t| && t[i] == Terminated
      ensures t[j] != Terminated
    {
      assert t[i] == b[i - |a|] && t[j] == b[j - |a|];
    }
    forall i, j | 0 <= i < j < |t| && t[i] == Spawned
      ensures t[j] != Spawned
    {
      assert t[i] == b[i - |a|] && t[j] == b[j - |a|];
    }
  }

  lemma LaunchCleansUp(t: seq<Event>, env: Env)
    requires LaunchShaped(t, env)
    ensures CleanedUpOnce(t, env)
  {
    if env.spawns {
      assert t[1] == Spawned && t[3] == Terminated;
    }
  }

  lemma LaunchedCleansUp(command: seq<string>, env: Env, backend: bool)
    ensures CleanedUpOnce(Launched(command, env, backend), env)
  {
    LaunchedShape(command, env, backend);
    LaunchCleansUp(Launched(command, env, backend), env);
  }

  /** What `Rebuild` yields: at most one build attempt, at its head, and a rejection there is followed by the 500 alone. */
  predicate RebuildShaped(b: seq<Event>, env: Env) {
    && |b| >= 1
    && (forall i :: 0 <= i < |b| ==> !b[i].Started? && !b[i].Resolved? && !b[i].Invalidated?)
    && (forall i :: 1 <= i < |b| ==> !b[i].Built? && !b[i].Rejected?)
    && (b[0].Rejected? ==> b == [b[0], ErrorSent(500)])
    && (forall i :: 0 <= i < |b| && b[i].ErrorSent? ==> i == |b| - 1 && b[i].code == 500)
    && CleanedUpOnce(b, env)
  }

  lemma RebuildShape(req: StreamRequest, found: Result<int, DetectError>, env: Env, config: Config)
    ensures RebuildShaped(Rebuild(req, found, env, config), env)
  {
    if found.Success? && BuildBackendCommand(found.value, config, req.address, req.port).Success? {
      var t := Launched(BuildBackendCommand(found.value, config, req.address, req.port).value, env, true);
      LaunchedShape(BuildBackendCommand(found.value, config, req.address, req.port).value, env, true);
      LaunchRebuilds(t, env);
    }
  }

  lemma LaunchRebuilds(t: seq<Event>, env: Env)
    requires LaunchShaped(t, env)
    ensures RebuildShaped(t, env)
  {
    LaunchCleansUp(t, env);
  }

  /**
   * Everything from the first build on: a build attempt first; after a
   * rejection there, the invalidation, one forced detection and at most one
   * more build attempt, a second rejection being followed by the 500 alone;
   * never a 200; any error sent is the last step and a 500; and the
   * transcoder is cleaned up once.
   */
  predicate ProceedShaped(t: seq<Event>, env: Env) {
    && |t| >= 2 && (t[0].Built? || t[0].Rejected?)
    && (forall i :: 0 <= i < |t| ==> !t[i].Started?)
    && (forall i :: 0 <= i < |t| && t[i].ErrorSent? ==> i == |t| - 1 && t[i].code == 500)
    && (forall i :: 0 <= i < |t| && (t[i].Built? || t[i].Rejected?) ==> i == 0 || (i == 3 && t[0].Rejected?))
    && (forall i :: 0 <= i < |t| && t[i].Resolved? ==> i == 2 && t[0].Rejected?)
    && (forall i :: 0 <= i < |t| && t[i].Invalidated? ==> i == 1 && t[0].Rejected?)
    && (t[0].Rejected? ==> |t| >= 4 && t[1].Invalidated? && t[2].Resolved? && t[2].detected)
    && (|t| > 3 && t[3].Rejected? ==> t == t[..4] + [ErrorSent(500)])
    && CleanedUpOnce(t, env)
  }

  lemma {:induction false} RetryAfterRebuild(pre: seq<Event>, b: seq<Event>, env: Env)
    requires |pre| == 3 && pre[0].Rejected? && pre[1].Invalidated? && pre[2].Resolved? && pre[2].detected
    requires RebuildShaped(b, env)
    ensures ProceedShaped(pre + b, env)
  {
    CleanedUpAfter(pre, b, env);
    var t := pre + b;
    if b[0].Rejected? {
      assert t[..4] == pre + [b[0]];
    }
  }

  /**
   * The retry: the rejection, the invalidation, one forced detection, then
   * at most one more build attempt; a second rejection is followed only by
   * the 500, and only a 500 can end the retry with an error.
   */
  lemma {:induction false} RetryShape(req: StreamRequest, pt: int, file: CacheFile, env: Env, config: Config)
    ensures var t := Retry(req, pt, file, env, config).trace;
      t[0] == Rejected(pt) && ProceedShaped(t, env)
  {
    var key := CacheKey(req.address, req.port);
    var r := Resolve(Load(Dropped(file, key, env.invalidateSave)), key, true, env.retry.rx, env.retry.now);
    RebuildShape(req, r.result, env, config);
    RetryAfterRebuild([Rejected(pt), Invalidated(key in Load(file)), Resolved(r.result, r.detected)],
                      Rebuild(req, r.result, env, config), env);
  }

  lemma {:induction false} ProceedShape(req: StreamRequest, pt: int, file: CacheFile, env: Env, config: Config)
    ensures ProceedShaped(Proceed(req, pt, file, env, config).trace, env)
  {
    match BuildBackendCommand(pt, config, req.address, req.port)
    case Success(command) =>
      LaunchedShape(command, env, true);
      LaunchProceeds(Launched(command, env, true), env);
    case Failure(_) =>
      RetryShape(req, pt, file, env, config);
  }

  lemma LaunchProceeds(t: seq<Event>, env: Env)
    requires LaunchShaped(t, env)
    ensures ProceedShaped(t, env)
  {
    LaunchCleansUp(t, env);
  }

  /**
   * The retry on an unsupported payload type happens at most once: build
   * attempts sit only at step 2 and, after a rejection there, at step 5;
   * lookups only at step 1 and, after that rejection, at step 4, which always
   * runs the detector; the only invalidation is step 3; and a second
   * rejection is followed by nothing but the 500.
   */
  predicate RetriedAtMostOnce(t: seq<Event>) {
    && |t| >= 3
    && (forall i :: 0 <= i < |t| && (t[i].Built? || t[i].Rejected?) ==> i == 2 || (i == 5 && t[2].Rejected?))
    && (forall i :: 0 <= i < |t| && t[i].Resolved? ==> i == 1 || (i == 4 && t[2].Rejected?))
    && (forall i :: 0 <= i < |t| && t[i].Invalidated? ==> i == 3 && t[2].Rejected?)
    && (t[2].Rejected? ==> |t| >= 6 && t[3].Invalidated? && t[4].Resolved? && t[4].detected)
    && (|t| > 5 && t[5].Rejected? ==> t == t[..6] + [ErrorSent(500)])
  }

  /**
   * The backend's promises for one validated request: the 200 with its
   * headers comes first and only once, then the lookup; at most one error
   * follows, a 500, as the last step; the retry happens at most once; and
   * the transcoder is cleaned up once.
   */
  predicate SessionShaped(t: seq<Event>, env: Env) {
    && |t| >= 3 && t[0] == Started(BackendHeaders) && t[1].Resolved?
    && (forall i :: 1 <= i < |t| ==> !t[i].Started?)
    && (forall i :: 0 <= i < |t| && t[i].ErrorSent? ==> i == |t| - 1 && t[i].code == 500)
    && RetriedAtMostOnce(t)
    && CleanedUpOnce(t, env)
  }

  lemma {:induction false} SessionAfterLookup(head: seq<Event>, rest: seq<Event>, env: Env)
    requires |head| == 2 && head[0] == Started(BackendHeaders) && head[1].Resolved?
    requires ProceedShaped(rest, env)
    ensures SessionShaped(head + rest, env)
  {
    CleanedUpAfter(head, rest, env);
    var t := head + rest;
    if |t| > 5 && t[5].Rejected? {
      assert t[..6] == head + rest[..4];
    }
  }

  lemma {:induction false} BackendSessionShape(req: StreamRequest, file: CacheFile, env: Env, config: Config)
    ensures SessionShaped(BackendSession(req, file, env, config).trace, env)
  {
    var r := Resolve(Load(file), CacheKey(req.address, req.port), req.forceDetect, env.first.rx, env.first.now);
    var head := [Started(BackendHeaders), Resolved(r.result, r.detected)];
    match r.result
    case Failure(_) =>
    case Success(pt) =>
      var file1 := Stored(file, r, env.first.save);
      ProceedShape(req, pt, file1, env, config);
      SessionAfterLookup(head, Proceed(req, pt, file1, env, config).trace, env);
  }

  /**
   * The backend starts its 200 response before it looks the payload type up
   * (so a later failure is a 500 sent after the response has begun), and
   * starts it once; at most one error is sent, a 500, as the last step.
   */
  lemma {:induction false} ResponseStartsFirst(req: StreamRequest, file: CacheFile, env: Env, config: Config)
    ensures var t := BackendSession(req, file, env, config).trace;
      && |t| >= 3 && t[0] == Started(BackendHeaders) && t[1].Resolved?
      && (forall i :: 1 <= i < |t| ==> !t[i].Started?)
      && (forall i :: 0 <= i < |t| && t[i].ErrorSent? ==> i == |t| - 1 && t[i].code == 500)
  {
    BackendSessionShape(req, file, env, config);
  }

  lemma {:induction false} RetryIsBounded(req: StreamRequest, file: CacheFile, env: Env, config: Config)
    ensures RetriedAtMostOnce(BackendSession(req, file, env, config).trace)
  {
    BackendSessionShape(req, file, env, config);
  }

  /** Whatever path the backend is asked for, its transcoder is cleaned up once exactly when it was started. */
  lemma {:induction false} BackendCleansUp(path: string, file: CacheFile, env: Env, config: Config)
    ensures CleanedUpOnce(BackendGet(path, file, env, config).trace, env)
  {
    if BackendRequest(path).Success? {
      BackendSessionShape(BackendRequest(path).value, file, env, config);
    }
  }

  /** The same for the mjpeg server. */
  lemma MjpegCleansUp(path: string, env: Env)
    ensures CleanedUpOnce(MjpegGet(path, env), env)
  {
    match MjpegRequest(path)
    case Unrouted =>
    case UnparsablePort =>
    case Stream(address, port) =>
      if address.Some? && port.Some? {
        MjpegStreamCleansUp(address.value, port.value, env);
        CleanedUpAfter([Started(MjpegHeaders)], MjpegStream(address.value, port.value, env), env);
      }
  }

  lemma MjpegStreamCleansUp(address: string, port: nat, env: Env)
    ensures CleanedUpOnce(MjpegStream(address, port, env), env)
  {
    match DetectMjpeg(env.first.rx)
    case Failure(e) =>
    case Success(pt) =>
      match BuildMjpegCommand(pt, address, port)
      case Failure(_) =>
      case Success(command) =>
        LaunchedCleansUp(command, env, false);
        CleanedUpAfter([Resolved(Success(pt), true)], Launched(command, env, false), env);
  }

  /**
   * After a rejected payload type the backend asks the detector again,
   * whatever the cache still holds, and reports what the detector observes.
   */
  lemma RetryForcesDetection(req: StreamRequest, file: CacheFile, env: Env, config: Config)
    requires var r := Resolve(Load(file), CacheKey(req.address, req.port), req.forceDetect, env.first.rx, env.first.now);
      r.result.Success? && !Supported(r.result.value)
    ensures var r := Resolve(Load(file), CacheKey(req.address, req.port), req.forceDetect, env.first.rx, env.first.now);
      var t := BackendSession(req, file, env, config).trace;
      && |t| >= 5
      && t[2] == Rejected(r.result.value)
      && t[3] == Invalidated(CacheKey(req.address, req.port) in Load(Stored(file, r, env.first.save)))
      && t[4].Resolved? && t[4].detected
      && (DetectBackend(env.retry.rx).Success? ==> t[4].payloadType == Success(DetectBackend(env.retry.rx).value))
      && (DetectBackend(env.retry.rx).Failure? ==> t[4].payloadType == Failure(DetectBackend(env.retry.rx).error))
  {
  }

  /**
   * A request the backend rejects is answered with the error alone, whatever
   * the environment: no lookup, no detection, no process, no cache write.
   */
  lemma RejectedRequestAnsweredAlone(path: string, file: CacheFile, env: Env, config: Config)
    requires BackendRequest(path).Failure?
    ensures BackendGet(path, file, env, config) == Outcome([ErrorSent(if StartsWith(path, "/mjpeg") then 400 else 404)], file)
  {
  }

  /**
   * An unforced request for an endpoint whose cached payload type has a
   * pipeline runs no detection and leaves the cache file as it was.
   */
  lemma CachedEntrySkipsDetection(req: StreamRequest, file: CacheFile, env: Env, config: Config)
    requires !req.forceDetect && CacheKey(req.address, req.port) in Load(file)
    requires Supported(Load(file)[CacheKey(req.address, req.port)].payloadType)
    ensures var o := BackendSession(req, file, env, config);
      && o.file == file
      && o.trace[1] == Resolved(Success(Load(file)[CacheKey(req.address, req.port)].payloadType), false)
      && forall e :: e in o.trace && e.Resolved? ==> !e.detected
  {
    var pt := Load(file)[CacheKey(req.address, req.port)].payloadType;
    LaunchedShape(BuildBackendCommand(pt, config, req.address, req.port).value, env, true);
  }

  /**
   * Once a detection has been stored, the next unforced request for the same
   * endpoint runs no detection, leaves the file as it is and launches the
   * same command.
   */
  lemma {:induction false} SecondRequestReusesDetection(req: StreamRequest, file: CacheFile, env: Env, env': Env, config: Config)
    requires req.forceDetect || CacheKey(req.address, req.port) !in Load(file)
    requires DetectBackend(env.first.rx).Success? && Supported(DetectBackend(env.first.rx).value)
    requires env.first.save == Saved
    ensures var first := BackendSession(req, file, env, config);
      var second := BackendSession(req.(forceDetect := false), first.file, env', config);
      var command := BuildBackendCommand(DetectBackend(env.first.rx).value, config, req.address, req.port).value;
      && first.trace == [Started(BackendHeaders), Resolved(Success(DetectBackend(env.first.rx).value), true)] + Launched(command, env, true)
      && second.trace == [Started(BackendHeaders), Resolved(Success(DetectBackend(env.first.rx).value), false)] + Launched(command, env', true)
      && second.file == first.file
  {
    StoredEntryIsReused(file, req.address, req.port, req.forceDetect, env.first.rx, env.first.now, env'.first.rx, env'.first.now);
  }

  /**
   * The mjpeg server answers an incomplete endpoint with a 200 followed by
   * a 500, whatever the environment, where the backend answers 400.
   */
  lemma MjpegIncompleteEndpointFails(path: string, env: Env)
    requires MjpegRequest(path).Stream? && (MjpegRequest(path).address.None? || MjpegRequest(path).port.None?)
    ensures MjpegGet(path, env) == [Started(MjpegHeaders), ErrorSent(500)]
    ensures BackendRequest(path) == Failure(MissingEndpoint)
  {
  }

  /** Off the route the mjpeg server answers 404 and for a non-numeric port 400, each before any response. */
  lemma MjpegRejectsBeforeResponse(path: string, env: Env)
    requires !MjpegRequest(path).Stream?
    ensures MjpegGet(path, env) == [ErrorSent(if StartsWith(path, "/mjpeg") then 400 else 404)]
  {
  }

  /**
   * For a complete endpoint the mjpeg server starts its 200 first and runs
   * the detector exactly once, with no cache.
   */
  lemma MjpegDetectsOnce(path: string, env: Env)
    requires MjpegRequest(path).Stream? && MjpegRequest(path).address.Some? && MjpegRequest(path).port.Some?
    ensures var t := MjpegGet(path, env);
      var found := DetectMjpeg(env.first.rx);
      && |t| >= 3 && t[0] == Started(MjpegHeaders)
      && t[1] == Resolved(if found.Success? then Success(found.value) else Failure(found.error), true)
      && (forall i :: 2 <= i < |t| ==> !t[i].Resolved? && !t[i].Started?)
  {
    var r := MjpegRequest(path);
    MjpegStreamShape(r.address.value, r.port.value, env);
    assert MjpegGet(path, env) == [Started(MjpegHeaders)] + MjpegStream(r.address.value, r.port.value, env);
  }

  lemma MjpegStreamShape(address: string, port: nat, env: Env)
    ensures var t := MjpegStream(address, port, env);
      var found := DetectMjpeg(env.first.rx);
      && |t| >= 2
      && t[0] == Resolved(if found.Success? then Success(found.value) else Failure(found.error), true)
      && (forall i :: 1 <= i < |t| ==> !t[i].Resolved? && !t[i].Started?)
  {
    match DetectMjpeg(env.first.rx)
    case Failure(_) =>
    case Success(pt) =>
      match BuildMjpegCommand(pt, address, port)
      case Failure(_) =>
      case Success(command) =>
        LaunchedShape(command, env, false);
  }
}

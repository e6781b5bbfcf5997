# RTP-to-MJPEG bridge: a Dafny model

The bridge serves live video to browsers. A client requests
`/mjpeg?ip=<group>&port=<port>` from one of two HTTP servers,
`backend_server.py` (port 8081) or `mjpeg_server.py`. The server then:

1. finds the RTP payload type of the multicast stream;
2. builds a `gst-launch-1.0` command for that payload type (96 is MPEG-PS; 33 and 103 are MPEG-TS carrying H.264);
3. launches the command;
4. copies the transcoder's standard output to the client as a
   `multipart/x-mixed-replace` stream with the boundary `spionisto`.

To find the payload type, the server watches one datagram of the stream and reads the low seven bits of its second octet.

The backend keeps a file of detected payload types, keyed by `address:port`. When a payload type has no pipeline, it invalidates that entry and detects once more. It also relays the transcoder's error and warning lines. The mjpeg server detects afresh on every request.

The modules follow the program's structure:

| module | file | models |
|---|---|---|
| `Wrappers` | wrappers.dfy | `Option` and `Result` |
| `Text` | text.dfy | decimal text, `split`/`join`, ASCII `lower()` and `strip()` |
| `Rtp` | rtp.dfy | the header parse of both `detect_payload_type` functions, and the RTP fixed header a sender writes (section 5.1 of RFC 3550) |
| `PayloadCache` | cache.dfy | `load_cache`, `save_cache`, `invalidate_cache_entry`, `get_payload_type` (the class `CacheStore` holds the file they rewrite) |
| `Pipeline` | pipeline.dfy | both `build_gst_command` functions |
| `Query` | query.dfy | the route check, the query-string loop and the endpoint validation of both `do_GET` handlers |
| `Streaming` | relay.dfy | `stream_data`, `stream_mjpeg` and `monitor_stderr` |
| `Session` | session.dfy | a whole GET request, as the trace of steps the client and the system observe |

A request is modelled as a trace of `Event`s:

- the 200 and its headers;
- an error code sent;
- a payload-type lookup, and whether it ran the detector;
- a rejected payload type;
- an invalidation;
- a built command;
- the spawn;
- the relayed chunks and why the relay ended;
- `terminate()`/`wait()`;
- `kill()`.

The model does not decide anything outside the process. An `Env` record carries these facts as parameters:

- what the network delivers to each detection (`Reception`);
- the clock reading when an entry is stored;
- whether each write of the cache file succeeds;
- whether `Popen` succeeds;
- what the transcoder writes and how each client write ends;
- whether the transcoder exits within the five-second grace period.

Points where the code behaves in a way a reader might not expect:

- The backend sends its 200 and headers *before* it looks up the payload type. Detection and build failures are therefore a `send_error(500)` after the response has started (`Session.ResponseStartsFirst`).
- The mjpeg server does not reject a missing `ip` or `port` with a 400. It sends its 200. The unbound variable then raises inside the `try`, and it sends a 500 (`Session.MjpegIncompleteEndpointFails`).
- The mjpeg server has no 12-octet guard on the datagram. Any datagram of at least two octets yields a payload type (`Rtp.ShortDatagramsDiffer`).
- The backend treats port `0` like a missing port (`not multicast_port`). The mjpeg server does not.

## Model

| member | source | states |
|---|---|---|
| Rtp.PayloadTypeBits | backend_server.py:103 | the octet is 128 times its marker bit plus the payload type |
| Rtp.PayloadTypeIsMasked | backend_server.py:103 | for every 8-bit value, the payload type equals the value masked with `0x7F` |
| Rtp.ParseBackendHeader | backend_server.py:99-106 | succeeds exactly on datagrams of at least 12 octets, fails with the datagram's length otherwise, and yields the low seven bits of the second octet |
| Rtp.ParseMjpegHeader | mjpeg_server.py:81-86 | succeeds exactly on datagrams of at least 2 octets, fails with a missing second octet otherwise, and yields the low seven bits of the second octet |
| Rtp.DetectBackend | backend_server.py:72-111 | a payload type exactly when a datagram of at least 12 octets arrived, and then the low seven bits of its second octet; a shorter datagram reports its length; a failed join, a timeout and a socket failure each report exactly their own cause |
| Rtp.DetectMjpeg | mjpeg_server.py:24-90 | a payload type exactly when a datagram of at least 2 octets arrived, and then the low seven bits of its second octet; a one-octet datagram fails at the missing octet; the network failures are the backend's |
| Rtp.BackendReadsEncodedPayloadType | backend_server.py:99-106 | the backend reads back the payload type of any well-formed RTP fixed header, whatever payload follows |
| Rtp.MjpegReadsEncodedPayloadType | mjpeg_server.py:81-86 | the mjpeg server reads back the payload type of any well-formed RTP fixed header, whatever payload follows |
| Rtp.MarkerIgnored | backend_server.py:103 | flipping the marker bit changes neither server's result |
| Rtp.ServersAgreeOnFullHeaders | mjpeg_server.py:84 | on datagrams of 12 or more octets both servers detect the same payload type |
| Rtp.ShortDatagramsDiffer | backend_server.py:100-101 | on 2 to 11 octets the backend reports a short packet while the mjpeg server reports a payload type |
| PayloadCache.CacheKeyInjective | backend_server.py:65 | distinct endpoints never share a cache key, even when the address holds a colon |
| PayloadCache.CacheKey | backend_server.py:65 | the key of an endpoint, also built at :124; what it means is stated by `CacheKeyNamesPort` and `CacheKeyInjective` |
| PayloadCache.CacheKeyNamesPort | backend_server.py:65 | a key starts with the whole address and a colon, and the text after them reads back as the port |
| PayloadCache.Load | backend_server.py:43-52 | a document reads as its entries; a missing or unreadable file reads as the empty cache |
| PayloadCache.AfterSave | backend_server.py:54-60 | a successful save reads back as the saved cache; a failed open leaves the file as it was; a failed write leaves a file that reads as empty |
| PayloadCache.Invalidated | backend_server.py:62-69 | writes nothing when the key is absent; otherwise keeps every other key with its entry and drops exactly that key |
| PayloadCache.Resolve | backend_server.py:113-147 | an unforced hit returns the cached value without detecting or writing; otherwise detects once; a failure propagates and writes nothing; a success stores exactly that key's entry with the clock reading and keeps the other entries |
| PayloadCache.CacheStore.constructor | backend_server.py:40 | the store starts with the given file |
| PayloadCache.CacheStore.LoadCache | backend_server.py:43-52 | the store's file read as a cache: a document's entries, otherwise the empty cache |
| PayloadCache.CacheStore.SaveCache | backend_server.py:54-60 | the file becomes what `AfterSave` gives |
| PayloadCache.CacheStore.InvalidateCacheEntry | backend_server.py:62-69 | writes exactly when the key was cached, and then saves the cache without that key; otherwise leaves the file alone |
| PayloadCache.CacheStore.GetPayloadType | backend_server.py:113-147 | returns the result and detection flag of `Resolve` on the loaded cache, and rewrites the file exactly when `Resolve` stores an entry |
| PayloadCache.StoredEntryIsReused | backend_server.py:128-145 | after a detection is saved, the next unforced lookup of that endpoint returns the same value without the detector and writes nothing |
| PayloadCache.OtherEndpointsUnaffected | backend_server.py:62-69 | neither storing nor invalidating one endpoint changes another endpoint's entry |
| Pipeline.BuildBackendCommand | backend_server.py:150-192 | succeeds exactly for payload types 96, 33 and 103, and otherwise fails naming the type |
| Pipeline.BackendCommandFrame | backend_server.py:152-192 | every backend command starts with the 8-token `udpsrc` base and ends in `fdsink fd=1 sync=false` |
| Pipeline.BackendCommandNamesEndpoint | backend_server.py:152-157 | the command runs the configured binary on `udpsrc` with the requested address, a port that parses back to the requested one, and the configured interface and auto-multicast flag |
| Pipeline.BackendSharesBoundary | backend_server.py:170 | the muxer's `boundary` property equals the boundary a client reads from the response's Content-type |
| Pipeline.BackendTransportVariants | backend_server.py:174-187 | the 33 and 103 commands are the same length and differ only in the caps filter's payload number |
| Pipeline.BuildMjpegCommand | mjpeg_server.py:93-146 | succeeds exactly for 96, 103 and 33, and otherwise fails naming the type |
| Pipeline.MjpegCommandFrame | mjpeg_server.py:95-146 | every mjpeg command starts with the mjpeg `udpsrc` base and ends in `fdsink fd=1 sync=true` |
| Pipeline.MjpegCommandNamesEndpoint | mjpeg_server.py:95-99 | the command runs the fixed binary verbosely on `udpsrc` with the requested address, a port that parses back to the requested one, interface 0.0.0.0 and auto-multicast on |
| Pipeline.MjpegSharesBoundary | mjpeg_server.py:110 | the muxer's boundary equals the boundary of the Content-type the mjpeg server sends |
| Pipeline.MjpegChainsAgree | mjpeg_server.py:114-142 | the separately written 103 and 33 chains agree on every token after the caps filter |
| Pipeline.MjpegTransportVariants | mjpeg_server.py:114-142 | the separately written 103 and 33 branches differ only in the caps filter's payload number |
| Query.ParseParams | backend_server.py:221-226 | the loop builds the dict of the `&`-separated pieces, each piece with an `=` setting its key |
| Query.LastWithKey | backend_server.py:223-226 | finds the last piece naming a key, or shows that no piece names it |
| Query.LastPieceWins | backend_server.py:223-226 | a key is in the dict exactly when some piece names it, and it holds the value of the last such piece |
| Query.LaterKeyOverrides | mjpeg_server.py:158-161 | appending `&key=value` sets that key and leaves every other parameter as it was |
| Query.BackendRequest | backend_server.py:204-247 | 404 exactly off the `/mjpeg` route; 400 for a non-numeric port; on success, `ip` is non-empty, `port` parses to a non-zero port, and the force flag is set exactly when `force_detect` lower-cases to `true` |
| Query.RouteBackend | backend_server.py:213-247 | the statement-by-statement handling of the parameters decides as `BackendRequest` does |
| Query.FlagTextReadsBack | backend_server.py:242 | the text written for a force flag reads back as that flag |
| Query.BackendRequestRoundTrip | backend_server.py:219-247 | a valid endpoint written into a request path is parsed back exactly, when its address holds no `&` |
| Query.MjpegRequest | mjpeg_server.py:150-173 | 404 exactly off the route; 400 exactly for a non-numeric port; otherwise streams with `ip` present exactly when given and `port` when given, each with its given value |
| Query.RouteMjpeg | mjpeg_server.py:152-173 | the statement-by-statement handling decides as `MjpegRequest` does |
| Query.MjpegAcceptsMissingEndpoint | mjpeg_server.py:155-175 | a path without a query is refused by the backend but passes the mjpeg server's checks with no endpoint |
| Query.MjpegRequestRoundTrip | mjpeg_server.py:155-173 | the mjpeg server reads the same endpoint out of the same request path |
| Streaming.Relay | backend_server.py:269-281 | the relay loop over the ticks delivers at most one chunk per tick, and never an empty chunk |
| Streaming.StreamData | backend_server.py:266-283 | the backend's loop relays what `Relay` gives when a would-block write is skipped |
| Streaming.StreamMjpeg | mjpeg_server.py:186-197 | the mjpeg loop relays what `Relay` gives when a would-block write ends the thread |
| Streaming.RelayDeliversWrittenPrefix | backend_server.py:269-281 | until the first tick that ends the loop, the client receives exactly the chunks whose write went through, in order; the loop ends for that tick's reason, or at end of stream |
| Streaming.DeliveredChunksNonEmpty | backend_server.py:271-272 | no empty chunk is ever written |
| Streaming.ClearFlagNeverStops | backend_server.py:269 | while the stop flag stays clear, the loop never ends because of it |
| Streaming.RelaysAgreeWithoutBlocking | mjpeg_server.py:188-195 | without a would-block write, the two servers relay the same chunks and stop for the same reason |
| Streaming.BlockedWriteDiffers | backend_server.py:279-281 | at a would-block write the backend drops the chunk and reads on, while the mjpeg server stops relaying |
| Streaming.Surfaces | backend_server.py:318-319 | a diagnostic line is shown exactly when its lower-cased text, stripped or not, contains `error`, `critical` or `warning` |
| Streaming.StripKeepsKeywords | backend_server.py:318-319 | stripping a line neither removes nor creates a keyword match in its lower-cased text |
| Streaming.MonitorLine | backend_server.py:316-319 | one turn of the monitor appends the tagged, stripped line exactly when it surfaces, and nothing otherwise |
| Streaming.MonitorStderr | backend_server.py:314-322 | the loop prints, in order, the stripped text of exactly the lines that surface |
| Session.Unstopped | backend_server.py:327-334 | the relay sees each read and write outcome in order with the stop flag clear, since it is set only after the join, so neither relay loop ends at the stop flag |
| Session.Launch | backend_server.py:306-340 | the launch phase produces the `Launched` trace: a failed spawn ends in a 500; otherwise spawn, relay, terminate, and kill when the grace period runs out |
| Session.LaunchedShape | backend_server.py:306-340 | the launch phase has the shape `LaunchShaped` describes: after the built command, a 500 alone, or the spawn, the relay and one cleanup; terminate happens once, kill only past the grace period and last; the relay never ends at the stop flag |
| Session.LaunchCleansUp | backend_server.py:333-340 | any trace of that shape keeps the cleanup promise |
| Session.RebuildAfter | backend_server.py:299-340 | the second build and what follows it produce the `Rebuild` trace |
| Session.RetryAfterRejection | backend_server.py:292-299 | the retry's trace and the new cache file are those of `Retry` |
| Session.ProceedWith | backend_server.py:290-340 | from the first build on, the trace and the new cache file are those of `Proceed` |
| Session.HandleStreamRequest | backend_server.py:249-340 | the trace and the new cache file are those of `BackendSession` |
| Session.DoGet | backend_server.py:204-211 | the trace and the new cache file are those of `BackendGet` |
| Session.MjpegDoGet | mjpeg_server.py:150-233 | the mjpeg server's handling yields the trace `MjpegGet` |
| Session.NoProcessCleanedUp | backend_server.py:335 | a trace without a process meets the cleanup promise |
| Session.CleanedUpAfter | backend_server.py:333-340 | steps without a process placed before a cleaned-up trace keep it cleaned up |
| Session.LaunchedCleansUp | backend_server.py:333-340 | the launch phase terminates the transcoder exactly when it was spawned, once, and kills it only past the grace period, as the last step |
| Session.BackendCleansUp | backend_server.py:204-340 | for every path, cache file and environment the backend keeps the cleanup promise |
| Session.MjpegCleansUp | mjpeg_server.py:150-233 | for every path and environment the mjpeg server keeps the cleanup promise |
| Session.MjpegStreamCleansUp | mjpeg_server.py:199-230 | the mjpeg stream phase keeps the cleanup promise |
| Session.RebuildShape | backend_server.py:297-299 | after the retry's lookup comes at most one build attempt, at its head; a rejection there is followed by the 500 alone; any error is last and a 500; the cleanup promise holds |
| Session.LaunchRebuilds | backend_server.py:306-340 | a launch has the shape required after the retry's lookup |
| Session.RetryAfterRebuild | backend_server.py:292-299 | the rejection, the invalidation and a detecting lookup, followed by a rebuild of that shape, make a trace of the `ProceedShaped` form |
| Session.RetryShape | backend_server.py:290-299 | the retry starts with the rejection of the given payload type, then the invalidation, one forced detection and at most one more build; a second rejection is followed by the 500 alone; any error sent is last and a 500; the cleanup promise holds |
| Session.LaunchProceeds | backend_server.py:290-340 | a launch straight after the first build has the `ProceedShaped` form |
| Session.ProceedShape | backend_server.py:290-340 | everything from the first build on has the `ProceedShaped` form: no 200, one retry at most, errors only last and only 500, the cleanup promise kept |
| Session.SessionAfterLookup | backend_server.py:249-299 | the 200 and a lookup, followed by a trace of the `ProceedShaped` form, make a trace of the `SessionShaped` form |
| Session.BackendSessionShape | backend_server.py:249-340 | every validated request meets every promise of `SessionShaped`: the 200 first and once, then the lookup, one retry at most, at most one error (a 500, last), and the cleanup promise |
| Session.ResponseStartsFirst | backend_server.py:249-332 | the 200 with its five headers comes first and only once, before the payload type is looked up; at most one error follows, a 500, as the last step |
| Session.RetryIsBounded | backend_server.py:285-299 | builds happen only at step 2 and, after a rejection there, at step 5; lookups only at steps 1 and 4; one invalidation; a second rejection ends in the 500 alone |
| Session.RetryForcesDetection | backend_server.py:292-297 | after a rejected payload type the backend invalidates the entry and asks the detector again, reporting what it observes |
| Session.RejectedRequestAnsweredAlone | backend_server.py:204-247 | a refused request gets only its 404 or 400, with no lookup, no process and no cache write |
| Session.CachedEntrySkipsDetection | backend_server.py:128-134 | an unforced request with a supported cached payload type runs no detection and leaves the cache file unchanged |
| Session.SecondRequestReusesDetection | backend_server.py:128-147 | once a detection is saved, the next unforced request runs no detection, keeps the file and launches the same command |
| Session.MjpegIncompleteEndpointFails | mjpeg_server.py:155-222 | a missing `ip` or `port` gets the 200 followed by a 500 in the mjpeg server, whatever the environment, where the backend refuses the request |
| Session.MjpegRejectsBeforeResponse | mjpeg_server.py:150-233 | off the route the mjpeg server answers 404, and for a non-numeric port 400, each alone |
| Session.MjpegDetectsOnce | mjpeg_server.py:175-203 | for a complete endpoint the 200 comes first, then exactly one detection |
| Session.MjpegStreamShape | mjpeg_server.py:199-222 | the stream phase starts with its one detection and never sends a second 200 |
| Text.NatToDecimal | backend_server.py:154 | the text of `f'port={multicast_port}'` and of the cache key: non-empty digits with no leading zero |
| Text.ParseDecimal | backend_server.py:235 | `int()` of a port succeeds exactly on non-empty digit strings |
| Text.SplitFirst | backend_server.py:221 | `split(c, 1)` exists exactly when `c` occurs, and splits at its first occurrence |
| Text.Split | backend_server.py:223 | `split('&')` yields at least one piece, none holding the separator |
| Text.Lower | backend_server.py:242 | `lower()` keeps the length, leaves no ASCII capital, and leaves every other character as it was |
| Text.DecimalRoundTrip | backend_server.py:235 | `int()` reads back the decimal text of every natural number |
| Text.DecimalInjective | backend_server.py:65 | distinct numbers have distinct decimal texts |
| Text.JoinSplit | backend_server.py:223 | joining the pieces of a split gives back the string |
| Text.SplitJoin | backend_server.py:223 | splitting a join of separator-free pieces gives back the pieces |
| Text.StripSlice | backend_server.py:318 | `strip()` removes leading and trailing whitespace and nothing in between |

## Left out

- The sockets of `detect_payload_type` are an oracle `Reception`. That covers the bind, the multicast join with its fallback, the timeout, `recvfrom(9000)` truncation, the mjpeg server's `ipconfig` run and its local-IP lookup. The socket is closed by the `finally` on every path after a successful join; a failed bind or join raises before that `finally` and leaves it open. The model does not track sockets or their closing.
- `subprocess.Popen`, `terminate`, `wait(timeout=5)` and `kill` are `Env` booleans. The `GST_DEBUG*` environment variables and the `stdout`/`stderr` pipes are not modelled.
- Threads are not modelled. The relay thread is joined straight after it starts, so it is modelled as a call. `monitor_stderr` runs on its own daemon thread; it is modelled on its own and is not part of the request trace.
- `load_config`, YAML and `argparse` are replaced by the `Config` record and by constants. The mjpeg server's test mode and its pcap option are left out.
- JSON is not modelled. A cache file is missing, unreadable or a map of entries. So a document that parses but lacks a `payload_type`, or holds a non-numeric `timestamp`, is not represented.
- PayloadCache.Load: a cache file whose bytes do not decode in the locale's text encoding raises `UnicodeDecodeError`. The handler in `load_cache` catches only `JSONDecodeError` and `IOError`, so in the source that lookup or invalidation raises, and the request ends in the 500 of `_handle_stream_request`. The model has no such file: every file it represents either loads or reads as empty.
- `print`, the cache-age message and `log_message` produce no state and are left out.
- `do_OPTIONS` is left out because it only sends fixed headers. The stray `send_header`/`end_headers` after `send_error(404)` are left out because they write after the error response.
- Session.MjpegDoGet, Session.DoGet: `send_error` is one `ErrorSent` event. The model does not say whether the error is still visible to a client after the 200 has started.
- Query.BackendRequest, Query.MjpegRequest, Text.ParseDecimal: port text is digits only. Python's `int()` also accepts a sign, surrounding whitespace and underscores, so `port=+5000` streams in both servers but is refused here (a 400).
- Text.StripSlice: `lower()` and `strip()` are ASCII-only. Python's Unicode case mapping and whitespace classes are not modelled.
- Streaming.MonitorStderr: lines are taken as already-decoded text. `decode('utf-8', errors='ignore')` is not modelled, and neither is the bare `except` around a failing pipe.
- Streaming.StreamData: chunks are whatever `read(4096)` returns. Partial writes and `flush()` buffering are not modelled; a flush failure counts as a failed write.
- `time.time()` is a float; it is modelled as an integer clock reading passed in.
- The model does not check that a payload type read from the cache is in 0..127. A cached value is taken as the file holds it.
- frontend_server.py is not part of this model.

/**
 * The worker loops of a stream session: `stream_data` (backend) and
 * `stream_mjpeg` (mjpeg server), which copy the transcoder's standard output
 * to the HTTP client, and the backend's `monitor_stderr`, which passes on
 * only the diagnostic lines that look like errors or warnings.
 */
module Streaming {
  import opened Text
  import opened Rtp

  type Chunk = seq<Octet>

  /** How `wfile.write(chunk)` (and, in the backend, the `flush()` after it) ended. */
  datatype WriteOutcome =
    | Written
    | Disconnected   // BrokenPipeError or ConnectionResetError
    | WouldBlock     // BlockingIOError
    | WriteError     // any other exception, caught outside the loop

  /**
   * One pass of the loop: the stop flag as it is tested, the chunk
   * `read(4096)` returns (empty at end of stream) and how writing it ended.
   * Once the ticks run out the pipe is at end of stream.
   */
  datatype Tick = Tick(stopSet: bool, chunk: Chunk, write: WriteOutcome)

  datatype StopReason = Stopped | EndOfStream | ClientGone | Faulted

  /** The chunks the client received, in order, and why the loop ended. */
  datatype Relayed = Relayed(delivered: seq<Chunk>, reason: StopReason)

  function Prepend(chunk: Chunk, r: Relayed): Relayed {
    Relayed([chunk] + r.delivered, r.reason)
  }

  function After(delivered: seq<Chunk>, r: Relayed): Relayed {
    Relayed(delivered + r.delivered, r.reason)
  }

  /** The relay loop over the ticks; `skipBlocked` is the backend's `except BlockingIOError: continue`. */
  function Relay(ticks: seq<Tick>, skipBlocked: bool): (r: Relayed)
    ensures |r.delivered| <= |ticks|
    ensures forall i :: 0 <= i < |r.delivered| ==> r.delivered[i] != []
  {
    if ticks == [] then Relayed([], EndOfStream)
    else
      var t := ticks[0];
      if t.stopSet then Relayed([], Stopped)
      else if t.chunk == [] then Relayed([], EndOfStream)
      else match t.write
        case Written => Prepend(t.chunk, Relay(ticks[1..], skipBlocked))
        case Disconnected => Relayed([], ClientGone)
        case WouldBlock => if skipBlocked then Relay(ticks[1..], skipBlocked) else Relayed([], Faulted)
        case WriteError => Relayed([], Faulted)
  }

  /** The backend's relay thread: read a chunk, write and flush it, until the pipe ends, the flag is set or a write fails. */
  method StreamData(ticks: seq<Tick>) returns (delivered: seq<Chunk>, reason: StopReason)
    ensures Relayed(delivered, reason) == Relay(ticks, true)
  {
    delivered := [];
    var i := 0;
    while true
      invariant 0 <= i <= |ticks|
      invariant Relay(ticks, true) == After(delivered, Relay(ticks[i..], true))
      decreases |ticks| - i
    {
      if i == |ticks| {
        reason := EndOfStream;
        return;
      }
      var t := ticks[i];
      if t.stopSet {
        reason := Stopped;
        return;
      }
      if t.chunk == [] {
        reason := EndOfStream;
        return;
      }
      match t.write {
        case Written =>
          delivered := delivered + [t.chunk];
        case Disconnected =>
          reason := ClientGone;
          return;
        case WouldBlock =>
          // skip this chunk rather than wait
        case WriteError =>
          reason := Faulted;
          return;
      }
      assert ticks[i..][1..] == ticks[i + 1..];
      i := i + 1;
    }
  }

  /** The mjpeg server's relay thread: as the backend's, with no flush and no BlockingIOError handler. */
  method StreamMjpeg(ticks: seq<Tick>) returns (delivered: seq<Chunk>, reason: StopReason)
    ensures Relayed(delivered, reason) == Relay(ticks, false)
  {
    delivered := [];
    var i := 0;
    while true
      invariant 0 <= i <= |ticks|
      invariant Relay(ticks, false) == After(delivered, Relay(ticks[i..], false))
      decreases |ticks| - i
    {
      if i == |ticks| {
        reason := EndOfStream;
        return;
      }
      var t := ticks[i];
      if t.stopSet {
        reason := Stopped;
        return;
      }
      if t.chunk == [] {
        reason := EndOfStream;
        return;
      }
      match t.write {
        case Written =>
          delivered := delivered + [t.chunk];
        case Disconnected =>
          reason := ClientGone;
          return;
        case _ =>
          // BlockingIOError and every other exception leave the loop through the outer handler
          reason := Faulted;
          return;
      }
      assert ticks[i..][1..] == ticks[i + 1..];
      i := i + 1;
    }
  }

  // ---------------------------------------------------------------------------
  // What the loop does, stated without the loop
  // ---------------------------------------------------------------------------

  /** Whether the loop leaves at this tick. */
  predicate Ends(t: Tick, skipBlocked: bool) {
    t.stopSet || t.chunk == [] || t.write == Disconnected || t.write == WriteError || (t.write == WouldBlock && !skipBlocked)
  }

  function ReasonAt(t: Tick): StopReason {
    if t.stopSet then Stopped
    else if t.chunk == [] then EndOfStream
    else if t.write == Disconnected then ClientGone
    else Faulted
  }

  /** The chunks whose write went through, in read order. */
  function WrittenChunks(ticks: seq<Tick>): seq<Chunk> {
    if ticks == [] then []
    else (if ticks[0].write == Written then [ticks[0].chunk] else []) + WrittenChunks(ticks[1..])
  }

  /**
   * With `n` the first tick at which the loop leaves (or the end of the
   * ticks), the client receives exactly the chunks written before `n`, in
   * read order, and the loop ends for the reason that tick gives.
   */
  lemma {:induction false} RelayDeliversWrittenPrefix(ticks: seq<Tick>, skipBlocked: bool, n: nat)
    requires n <= |ticks|
    requires forall j :: 0 <= j < n ==> !Ends(ticks[j], skipBlocked)
    requires n < |ticks| ==> Ends(ticks[n], skipBlocked)
    ensures Relay(ticks, skipBlocked).delivered == WrittenChunks(ticks[..n])
    ensures Relay(ticks, skipBlocked).reason == if n == |ticks| then EndOfStream else ReasonAt(ticks[n])
  {
    if n > 0 {
      RelayDeliversWrittenPrefix(ticks[1..], skipBlocked, n - 1);
      assert ticks[1..][..n - 1] == ticks[..n][1..];
    }
  }

  /** Every chunk the client receives is non-empty: an empty read always ends the loop. */
  lemma {:induction false} DeliveredChunksNonEmpty(ticks: seq<Tick>, skipBlocked: bool)
    ensures forall c :: c in Relay(ticks, skipBlocked).delivered ==> c != []
  {
    if ticks != [] {
      DeliveredChunksNonEmpty(ticks[1..], skipBlocked);
    }
  }

  /** While the stop flag stays clear the loop never ends for that reason. */
  lemma {:induction false} ClearFlagNeverStops(ticks: seq<Tick>, skipBlocked: bool)
    requires forall j :: 0 <= j < |ticks| ==> !ticks[j].stopSet
    ensures Relay(ticks, skipBlocked).reason != Stopped
  {
    if ticks != [] {
      ClearFlagNeverStops(ticks[1..], skipBlocked);
    }
  }

  /** Without a BlockingIOError before the loop ends, both servers relay the same. */
  lemma {:induction false} RelaysAgreeWithoutBlocking(ticks: seq<Tick>)
    requires forall j :: 0 <= j < |ticks| ==> ticks[j].write != WouldBlock
    ensures Relay(ticks, true) == Relay(ticks, false)
  {
    if ticks != [] {
      RelaysAgreeWithoutBlocking(ticks[1..]);
    }
  }

  /** At a BlockingIOError the backend drops the chunk and reads on; the mjpeg server stops relaying. */
  lemma BlockedWriteDiffers(t: Tick, rest: seq<Tick>)
    requires !t.stopSet && t.chunk != [] && t.write == WouldBlock
    ensures Relay([t] + rest, true) == Relay(rest, true)
    ensures Relay([t] + rest, false) == Relayed([], Faulted)
  {
    assert ([t] + rest)[1..] == rest;
  }

  // ---------------------------------------------------------------------------
  // monitor_stderr
  // ---------------------------------------------------------------------------

  const Keywords: seq<string> := ["error", "critical", "warning"]

  /** Whether a text contains one of the keywords. */
  predicate Mentions(text: string) {
    exists k :: 0 <= k < |Keywords| && Contains(text, Keywords[k])
  }

  /**
   * A stderr line is shown when its stripped, lower-cased text contains one
   * of the keywords; stripping never cuts a keyword, so the whole line decides.
   */
  predicate Surfaces(line: string): (shown: bool)
    ensures shown <==> Mentions(Lower(line))
  {
    StripKeepsKeywords(line);
    Mentions(Lower(Strip(line)))
  }

  lemma LowerSlice(s: string, a: nat, b: nat)
    requires a <= b <= |s|
    ensures Lower(s[a..b]) == Lower(s)[a..b]
  {
  }

  /** A match found in the stripped text is a match in the whole text. */
  lemma MatchWidens(line: string, a: nat, b: nat, w: string, i: nat)
    requires a <= b <= |line| && OccursAt(Lower(line[a..b]), w, i)
    ensures OccursAt(Lower(line), w, a + i)
  {
    LowerSlice(line, a, b);
    assert Lower(line)[a + i..a + i + |w|] == Lower(line[a..b])[i..i + |w|];
  }

  /**
   * A match in the whole text of a word that starts and ends with a letter
   * lies inside the stripped text.
   */
  lemma MatchNarrows(line: string, a: nat, b: nat, w: string, i: nat)
    requires a <= b <= |line| && OccursAt(Lower(line), w, i) && |w| > 0
    requires forall j :: 0 <= j < a ==> IsSpace(line[j])
    requires forall j :: b <= j < |line| ==> IsSpace(line[j])
    requires 'a' <= w[0] <= 'z' && 'a' <= w[|w| - 1] <= 'z'
    ensures i >= a && OccursAt(Lower(line[a..b]), w, i - a)
  {
    assert Lower(line)[i] == w[0];
    assert Lower(line)[i + |w| - 1] == w[|w| - 1];
    assert !IsSpace(line[i]) && !IsSpace(line[i + |w| - 1]);
    LowerSlice(line, a, b);
    assert Lower(line[a..b])[i - a..i - a + |w|] == Lower(line)[i..i + |w|];
  }

  lemma KeywordEnds(k: nat)
    requires k < |Keywords|
    ensures |Keywords[k]| > 0
    ensures 'a' <= Keywords[k][0] <= 'z' && 'a' <= Keywords[k][|Keywords[k]| - 1] <= 'z'
  {
  }

  /** Stripping a line neither removes nor creates a keyword match in its lower-cased text. */
  lemma StripKeepsKeywords(line: string)
    ensures Mentions(Lower(Strip(line))) <==> Mentions(Lower(line))
  {
    var a, b := StripSlice(line);
    if Mentions(Lower(Strip(line))) {
      var k :| 0 <= k < |Keywords| && Contains(Lower(Strip(line)), Keywords[k]);
      var i: nat :| i <= |Lower(line[a..b])| && OccursAt(Lower(line[a..b]), Keywords[k], i);
      MatchWidens(line, a, b, Keywords[k], i);
      assert Contains(Lower(line), Keywords[k]);
    }
    if Mentions(Lower(line)) {
      var k :| 0 <= k < |Keywords| && Contains(Lower(line), Keywords[k]);
      var i: nat :| i <= |Lower(line)| && OccursAt(Lower(line), Keywords[k], i);
      KeywordEnds(k);
      MatchNarrows(line, a, b, Keywords[k], i);
      assert Contains(Lower(Strip(line)), Keywords[k]);
    }
  }

  /** What `monitor_stderr` prints for one line: the tagged stripped text when it surfaces, else nothing. */
  function Printed(line: string): seq<string> {
    if Surfaces(line) then ["[GStreamer] " + Strip(line)] else []
  }

  /** The lines `monitor_stderr` prints, in order (each line here is already decoded text). */
  function SurfacedLines(lines: seq<string>): seq<string> {
    if lines == [] then [] else SurfacedLines(lines[..|lines| - 1]) + Printed(lines[|lines| - 1])
  }

  /** One turn of the stderr monitor: print the line when it surfaces. */
  method MonitorLine(logged: seq<string>, line: string) returns (after: seq<string>)
    ensures after == logged + Printed(line)
  {
    after := logged;
    if Surfaces(line) {
      after := after + ["[GStreamer] " + Strip(line)];
    }
  }

  /** The stderr monitor's loop over the lines read before end of stream, in order. */
  method MonitorStderr(lines: seq<string>) returns (logged: seq<string>)
    ensures logged == SurfacedLines(lines)
  {
    logged := [];
    for i := 0 to |lines|
      invariant logged == SurfacedLines(lines[..i])
    {
      assert lines[..i + 1][..i] == lines[..i];
      logged := MonitorLine(logged, lines[i]);
    }
    assert lines[..|lines|] == lines;
  }
}

/**
 * `build_gst_command` of both servers: a closed allow-list from an RTP
 * payload type to the argument list of a `gst-launch-1.0` process that
 * depacketises, decodes, re-encodes to JPEG and muxes a multipart stream
 * onto its standard output.
 */
module Pipeline {
  import opened Wrappers
  import opened Text

  /** The multipart boundary shared by the HTTP response and the muxer. */
  const Boundary: string := "spionisto"

  const MultipartPrefix: string := "multipart/x-mixed-replace; boundary="

  function MultipartContentType(boundary: string): string {
    MultipartPrefix + boundary
  }

  /** The `Content-type` value both servers send with their 200. */
  const ContentType: string := MultipartContentType(Boundary)

  /** The boundary parameter a client reads off a multipart `Content-type`. */
  function ContentTypeBoundary(contentType: string): Option<string> {
    if StartsWith(contentType, MultipartPrefix) then Some(contentType[|MultipartPrefix|..]) else None
  }

  /** The value a `name=value` element property token assigns. */
  function PropertyValue(token: string, name: string): Option<string> {
    if StartsWith(token, name + "=") then Some(token[|name| + 1..]) else None
  }

  /** The configuration keys the backend's builder reads (`gstreamer.bin_path` and `network.*`). */
  datatype Config = Config(
    binPath: string,
    multicastInterface: string,
    autoMulticast: bool,
    jitterBufferLatency: int)

  datatype BuildError = UnsupportedPayloadType(pt: int)

  /** The payload types with a pipeline: MPEG-PS (96) and MPEG-TS (33, 103). */
  predicate Supported(pt: int) {
    pt == 96 || pt == 33 || pt == 103
  }

  /** The `udpsrc` element and its properties: eight tokens in both servers. */
  const BaseLength: nat := 8

  /** `str(b).lower()` for a Python bool. */
  function BoolLower(b: bool): string {
    if b then "true" else "false"
  }

  // ---------------------------------------------------------------------------
  // backend_server.py
  // ---------------------------------------------------------------------------

  function BackendBase(config: Config, address: string, port: nat): (base: seq<string>)
    ensures |base| == BaseLength
  {
    [config.binPath, "-q", "udpsrc", "address=" + address, "port=" + NatToDecimal(port),
     "multicast-iface=" + config.multicastInterface, "auto-multicast=" + BoolLower(config.autoMulticast), "!"]
  }

  function BackendTail(): seq<string> {
    ["videoconvert", "!", "jpegenc", "quality=85", "!", "queue", "max-size-buffers=2", "leaky=downstream", "!",
     "multipartmux", "boundary=" + Boundary, "!", "fdsink", "fd=1", "sync=false"]
  }

  /** MPEG-2 program stream in RTP (payload type 96). */
  function BackendProgramStream(config: Config): seq<string> {
    ["capsfilter", "caps=application/x-rtp,media=video,encoding-name=MP2P,payload=96,clock-rate=90000", "!",
     "rtpjitterbuffer", "latency=" + IntToDecimal(config.jitterBufferLatency), "drop-on-latency=true", "!",
     "rtpmp2pdepay", "!", "mpegpsdemux", "!", "mpegvideoparse", "!", "d3d11mpeg2dec", "!"] + BackendTail()
  }

  function TransportCaps(pt: nat): string {
    CapsPrefix + NatToDecimal(pt) + ClockRate
  }

  /** MPEG-2 transport stream carrying H.264 (payload types 33 and 103). */
  function BackendTransportStream(pt: nat, config: Config): seq<string> {
    ["capsfilter", TransportCaps(pt)] + BackendTransportChain(config)
  }

  /** Everything after the caps token of the MPEG-TS pipeline: it does not depend on the payload type. */
  function BackendTransportChain(config: Config): seq<string> {
    ["!", "rtpjitterbuffer", "latency=" + IntToDecimal(config.jitterBufferLatency), "!",
     "rtpmp2tdepay2", "!", "tsdemux", "!", "h264parse", "!", "d3d11h264dec", "!"] + BackendTail()
  }

  /** The backend's `build_gst_command`; `Failure` is its `ValueError`. */
  function BuildBackendCommand(pt: int, config: Config, address: string, port: nat): (r: Result<seq<string>, BuildError>)
    ensures r.Success? <==> Supported(pt)
    ensures r.Failure? ==> r.error == UnsupportedPayloadType(pt)
  {
    var base := BackendBase(config, address, port);
    if pt == 96 then Success(base + BackendProgramStream(config))
    else if pt == 33 || pt == 103 then Success(base + BackendTransportStream(pt, config))
    else Failure(UnsupportedPayloadType(pt))
  }

  /** Every backend command is the `udpsrc` base, then the chain, ending in an unsynchronised `fdsink` on standard output. */
  lemma BackendCommandFrame(pt: int, config: Config, address: string, port: nat)
    requires Supported(pt)
    ensures var cmd := BuildBackendCommand(pt, config, address, port).value;
      && |cmd| > BaseLength && cmd[..BaseLength] == BackendBase(config, address, port)
      && cmd[|cmd| - 3..] == ["fdsink", "fd=1", "sync=false"]
  {
  }

  /** The command names the requested endpoint and the configured interface, and the port reads back as given. */
  lemma BackendCommandNamesEndpoint(pt: int, config: Config, address: string, port: nat)
    requires Supported(pt)
    ensures var cmd := BuildBackendCommand(pt, config, address, port).value;
      && cmd[0] == config.binPath && cmd[2] == "udpsrc"
      && cmd[3] == "address=" + address
      && StartsWith(cmd[4], "port=") && ParseDecimal(cmd[4][5..]) == Some(port)
      && cmd[5] == "multicast-iface=" + config.multicastInterface
      && cmd[6] == "auto-multicast=" + (if config.autoMulticast then "true" else "false")
  {
    var cmd := BuildBackendCommand(pt, config, address, port).value;
    assert cmd[..BaseLength][4] == cmd[4];
    assert cmd[4][5..] == NatToDecimal(port);
    DecimalRoundTrip(port);
  }

  /** The muxer is told the same boundary a client reads off the response's `Content-type`. */
  lemma BackendSharesBoundary(pt: int, config: Config, address: string, port: nat)
    requires Supported(pt)
    ensures var cmd := BuildBackendCommand(pt, config, address, port).value;
      exists i :: 0 < i < |cmd| && cmd[i - 1] == "multipartmux" && PropertyValue(cmd[i], "boundary") == ContentTypeBoundary(ContentType)
  {
    var cmd := BuildBackendCommand(pt, config, address, port).value;
    var i := |cmd| - 5;
    assert cmd[i - 1] == "multipartmux" && cmd[i] == "boundary=" + Boundary;
    assert ContentType[|MultipartPrefix|..] == Boundary;
  }

  /** The 33 and 103 commands differ in one token only: the caps filter's payload number. */
  lemma BackendTransportVariants(config: Config, address: string, port: nat)
    ensures var a := BuildBackendCommand(33, config, address, port).value;
      var b := BuildBackendCommand(103, config, address, port).value;
      && |a| == |b|
      && (forall i :: 0 <= i < |a| && i != BaseLength + 1 ==> a[i] == b[i])
      && a[BaseLength + 1] == TransportCaps(33) && b[BaseLength + 1] == TransportCaps(103)
  {
    var s, t := BackendTransportStream(33, config), BackendTransportStream(103, config);
    assert s[2..] == BackendTransportChain(config) == t[2..];
    OneTokenApart(BackendBase(config, address, port), s, t);
  }

  /** Two commands on one base whose chains differ only in their second token differ only there. */
  lemma OneTokenApart(base: seq<string>, s: seq<string>, t: seq<string>)
    requires |s| == |t| >= 2 && s[0] == t[0] && s[2..] == t[2..]
    ensures |base + s| == |base + t|
    ensures forall i :: 0 <= i < |base + s| && i != |base| + 1 ==> (base + s)[i] == (base + t)[i]
  {
    forall i | 0 <= i < |base + s| && i != |base| + 1
      ensures (base + s)[i] == (base + t)[i]
    {
      if i >= |base| + 2 {
        assert (base + s)[i] == s[2..][i - |base| - 2] && (base + t)[i] == t[2..][i - |base| - 2];
      }
    }
  }

  // ---------------------------------------------------------------------------
  // mjpeg_server.py
  // ---------------------------------------------------------------------------

  const MjpegBin: string := "C:\\gstreamer\\1.0\\msvc_x86_64\\bin\\gst-launch-1.0.exe"

  function MjpegBase(address: string, port: nat): (base: seq<string>)
    ensures |base| == BaseLength
  {
    [MjpegBin, "-v", "udpsrc", "address=" + address, "port=" + NatToDecimal(port),
     "multicast-iface=0.0.0.0", "auto-multicast=true", "!"]
  }

  const Mjpeg96: seq<string> :=
    ["capsfilter", "caps=application/x-rtp,media=video,encoding-name=MP2P,payload=96,clock-rate=90000", "!",
     "rtpjitterbuffer", "latency=200", "!",
     "rtpmp2pdepay", "!", "decodebin", "!", "videoconvert", "!", "qsvjpegenc", "!", "queue", "!",
     "multipartmux", "boundary=" + Boundary, "!", "fdsink", "fd=1", "sync=true"]

  const Mjpeg103: seq<string> :=
    ["capsfilter", CapsPrefix + "103" + ClockRate, "!",
     "rtpjitterbuffer", "latency=200", "!",
     "rtpmp2tdepay2", "!", "tsdemux", "!", "h264parse", "!", "qsvh264dec", "!", "videoconvert", "!",
     "qsvjpegenc", "!", "queue", "!",
     "multipartmux", "boundary=" + Boundary, "!", "fdsink", "fd=1", "sync=true"]

  const Mjpeg33: seq<string> :=
    ["capsfilter", CapsPrefix + "33" + ClockRate, "!",
     "rtpjitterbuffer", "latency=200", "!",
     "rtpmp2tdepay2", "!", "tsdemux", "!", "h264parse", "!", "qsvh264dec", "!", "videoconvert", "!",
     "qsvjpegenc", "!", "queue", "!",
     "multipartmux", "boundary=" + Boundary, "!", "fdsink", "fd=1", "sync=true"]

  /** The mjpeg server's `build_gst_command`; `Failure` is its `ValueError`. */
  function BuildMjpegCommand(pt: int, address: string, port: nat): (r: Result<seq<string>, BuildError>)
    ensures r.Success? <==> Supported(pt)
    ensures r.Failure? ==> r.error == UnsupportedPayloadType(pt)
  {
    var base := MjpegBase(address, port);
    if pt == 96 then Success(base + Mjpeg96)
    else if pt == 103 then Success(base + Mjpeg103)
    else if pt == 33 then Success(base + Mjpeg33)
    else Failure(UnsupportedPayloadType(pt))
  }

  /** Every mjpeg command is the `udpsrc` base, then the chain, ending in a synchronised `fdsink` on standard output. */
  lemma MjpegCommandFrame(pt: int, address: string, port: nat)
    requires Supported(pt)
    ensures var cmd := BuildMjpegCommand(pt, address, port).value;
      && |cmd| > BaseLength && cmd[..BaseLength] == MjpegBase(address, port)
      && cmd[|cmd| - 3..] == ["fdsink", "fd=1", "sync=true"]
  {
  }

  /** The mjpeg command names the requested endpoint, with a fixed interface and auto-multicast on. */
  lemma MjpegCommandNamesEndpoint(pt: int, address: string, port: nat)
    requires Supported(pt)
    ensures var cmd := BuildMjpegCommand(pt, address, port).value;
      && cmd[0] == MjpegBin && cmd[1] == "-v" && cmd[2] == "udpsrc"
      && cmd[3] == "address=" + address
      && StartsWith(cmd[4], "port=") && ParseDecimal(cmd[4][5..]) == Some(port)
      && cmd[5] == "multicast-iface=0.0.0.0" && cmd[6] == "auto-multicast=true" && cmd[7] == "!"
  {
    var cmd := BuildMjpegCommand(pt, address, port).value;
    assert cmd[..BaseLength][4] == cmd[4];
    assert cmd[4][5..] == NatToDecimal(port);
    DecimalRoundTrip(port);
  }

  lemma MjpegSharesBoundary(pt: int, address: string, port: nat)
    requires Supported(pt)
    ensures var cmd := BuildMjpegCommand(pt, address, port).value;
      exists i :: 0 < i < |cmd| && cmd[i - 1] == "multipartmux" && PropertyValue(cmd[i], "boundary") == ContentTypeBoundary(ContentType)
  {
    var cmd := BuildMjpegCommand(pt, address, port).value;
    var i := |cmd| - 5;
    assert cmd[i - 1] == "multipartmux" && cmd[i] == "boundary=" + Boundary;
    assert ContentType[|MultipartPrefix|..] == Boundary;
  }

  /** The MPEG-TS caps filter, around its payload number. */
  const CapsPrefix: string := "caps=application/x-rtp,media=video,encoding-name=MP2T,payload="
  const ClockRate: string := ",clock-rate=90000"

  lemma Caps103()
    ensures Mjpeg103[1] == TransportCaps(103)
  {
    assert NatToDecimal(10) == "10";
    assert NatToDecimal(103) == "103";
  }

  lemma Caps33()
    ensures Mjpeg33[1] == TransportCaps(33)
  {
    assert NatToDecimal(33) == "33";
  }

  /** The 103 and 33 branches, written out separately, are the same list but for the caps filter's payload number. */
  lemma MjpegChainsAgree()
    ensures |Mjpeg103| == |Mjpeg33| && Mjpeg103[0] == Mjpeg33[0] && Mjpeg103[2..] == Mjpeg33[2..]
  {
  }

  lemma MjpegTransportVariants(address: string, port: nat)
    ensures var a := BuildMjpegCommand(103, address, port).value;
      var b := BuildMjpegCommand(33, address, port).value;
      && |a| == |b|
      && (forall i :: 0 <= i < |a| && i != BaseLength + 1 ==> a[i] == b[i])
      && a[BaseLength + 1] == TransportCaps(103) && b[BaseLength + 1] == TransportCaps(33)
  {
    Caps103();
    Caps33();
    MjpegChainsAgree();
    OneTokenApart(MjpegBase(address, port), Mjpeg103, Mjpeg33);
  }
}

/**
 * Payload-type extraction from the RTP fixed header (section 5.1 of RFC 3550)
 * and the detector around it.  The socket work of `detect_payload_type`
 * (bind, multicast join with its fallback, receive with a timeout) is an
 * oracle: a `Reception` says what the network delivered.
 */
module Rtp {
  import opened Wrappers

  /** Size of the RTP fixed header: the backend refuses anything shorter. */
  const MinHeaderLength: nat := 12

  /** One octet of a datagram, as Python's `bytes` indexing yields it. */
  type Octet = n: int | 0 <= n < 256

  type PayloadType = n: nat | n < 128

  /** Why no payload type came out of a detection attempt. */
  datatype DetectError =
    | TooShort(length: nat)   // backend: "Invalid RTP packet: too short"
    | NoSecondByte            // mjpeg: `data[1]` raises IndexError
    | JoinFailed              // both joins of the multicast group failed
    | TimedOut                // no datagram within the socket timeout
    | SocketFailed            // the socket could not be created or bound

  /** What one detection attempt observed on the network. */
  datatype Reception =
    | Datagram(data: seq<Octet>)
    | NoMembership
    | NothingReceived
    | NoSocket

  /**
   * `b & 0x7F`: the low 7 bits of an octet.  On 0..255 masking with 0x7F is
   * the remainder modulo 128; the bit above them, the marker, is the quotient.
   */
  function PayloadTypeBits(b: Octet): (pt: PayloadType)
    ensures b == 128 * (b / 128) + pt
  {
    b % 128
  }

  /** On an 8-bit vector, masking with `0x7F` keeps the remainder modulo 128. */
  lemma MaskIsRemainder(x: bv8)
    ensures (x & 0x7F) as int == (x as int) % 128
  {
    assert x & 0x7F == x % 128;
  }

  /** The payload type is the octet masked with `0x7F`, as both servers compute it. */
  lemma PayloadTypeIsMasked(x: bv8)
    ensures PayloadTypeBits(x as int) == (x & 0x7F) as int
  {
    MaskIsRemainder(x);
  }

  /** Header parse of the backend's `detect_payload_type`: at least 12 octets, then `data[1] & 0x7F`. */
  function ParseBackendHeader(data: seq<Octet>): (r: Result<PayloadType, DetectError>)
    ensures r.Success? <==> |data| >= MinHeaderLength
    ensures r.Failure? ==> r.error == TooShort(|data|)
    ensures r.Success? ==> r.value == PayloadTypeBits(data[1])
  {
    if |data| < MinHeaderLength then Failure(TooShort(|data|)) else Success(PayloadTypeBits(data[1]))
  }

  /** Header parse of the mjpeg server: no length guard, so only a datagram without a second octet fails. */
  function ParseMjpegHeader(data: seq<Octet>): (r: Result<PayloadType, DetectError>)
    ensures r.Success? <==> |data| >= 2
    ensures r.Failure? ==> r.error == NoSecondByte
    ensures r.Success? ==> r.value == PayloadTypeBits(data[1])
  {
    if |data| < 2 then Failure(NoSecondByte) else Success(PayloadTypeBits(data[1]))
  }

  /**
   * The backend's `detect_payload_type` given what the network delivered:
   * only a full header yields a payload type, and each failure names its cause.
   */
  function DetectBackend(rx: Reception): (r: Result<PayloadType, DetectError>)
    ensures r.Success? <==> rx.Datagram? && |rx.data| >= MinHeaderLength
    ensures r.Success? ==> r.value == PayloadTypeBits(rx.data[1])
    ensures r == Failure(JoinFailed) <==> rx.NoMembership?
    ensures r == Failure(TimedOut) <==> rx.NothingReceived?
    ensures r == Failure(SocketFailed) <==> rx.NoSocket?
    ensures rx.Datagram? && r.Failure? ==> r.error == TooShort(|rx.data|)
  {
    match rx
    case Datagram(data) => ParseBackendHeader(data)
    case NoMembership => Failure(JoinFailed)
    case NothingReceived => Failure(TimedOut)
    case NoSocket => Failure(SocketFailed)
  }

  /**
   * The mjpeg server's `detect_payload_type` given what the network delivered:
   * any datagram with a second octet yields a payload type; the network
   * failures are the backend's.
   */
  function DetectMjpeg(rx: Reception): (r: Result<PayloadType, DetectError>)
    ensures r.Success? <==> rx.Datagram? && |rx.data| >= 2
    ensures r.Success? ==> r.value == PayloadTypeBits(rx.data[1])
    ensures rx.Datagram? && r.Failure? ==> r.error == NoSecondByte
    ensures !rx.Datagram? ==> r == DetectBackend(rx)
  {
    match rx
    case Datagram(data) => ParseMjpegHeader(data)
    case _ => DetectBackend(rx)
  }

  // ---------------------------------------------------------------------------
  // The RTP fixed header, as a sender lays it out (RFC 3550, section 5.1)
  // ---------------------------------------------------------------------------

  datatype FixedHeader = FixedHeader(
    version: nat,
    padding: bool,
    extension: bool,
    csrcCount: nat,
    marker: bool,
    payloadType: PayloadType,
    sequenceNumber: nat,
    timestamp: nat,
    ssrc: nat)

  predicate WellFormed(h: FixedHeader) {
    h.version < 4 && h.csrcCount < 16 && h.sequenceNumber < 0x1_0000
    && h.timestamp < 0x1_0000_0000 && h.ssrc < 0x1_0000_0000
  }

  /** `n` as `width` octets, most significant first. */
  function BigEndian(n: nat, width: nat): (octets: seq<Octet>)
    ensures |octets| == width
  {
    if width == 0 then [] else BigEndian(n / 256, width - 1) + [n % 256]
  }

  /** The value of a one-bit field placed at weight `bit`. */
  function Flag(b: bool, bit: nat): nat {
    if b then bit else 0
  }

  /** The twelve octets of the fixed header: V(2) P(1) X(1) CC(4) | M(1) PT(7) | sequence | timestamp | SSRC. */
  function Encode(h: FixedHeader): (octets: seq<Octet>)
    requires WellFormed(h)
    ensures |octets| == MinHeaderLength
  {
    var first := h.version * 64 + Flag(h.padding, 32) + Flag(h.extension, 16) + h.csrcCount;
    var second := Flag(h.marker, 128) + h.payloadType;
    [first, second] + BigEndian(h.sequenceNumber, 2) + BigEndian(h.timestamp, 4) + BigEndian(h.ssrc, 4)
  }

  lemma SecondOctet(h: FixedHeader)
    requires WellFormed(h)
    ensures Encode(h)[1] == Flag(h.marker, 128) + h.payloadType
    ensures PayloadTypeBits(Encode(h)[1]) == h.payloadType
  {
  }

  /** The backend reads back the payload type of any RTP packet a sender builds, whatever follows the header. */
  lemma {:induction false} BackendReadsEncodedPayloadType(h: FixedHeader, payload: seq<Octet>)
    requires WellFormed(h)
    ensures ParseBackendHeader(Encode(h) + payload) == Success(h.payloadType)
  {
    SecondOctet(h);
    var data := Encode(h) + payload;
    assert data[1] == Encode(h)[1];
  }

  /** So does the mjpeg server. */
  lemma {:induction false} MjpegReadsEncodedPayloadType(h: FixedHeader, payload: seq<Octet>)
    requires WellFormed(h)
    ensures ParseMjpegHeader(Encode(h) + payload) == Success(h.payloadType)
  {
    SecondOctet(h);
    var data := Encode(h) + payload;
    assert data[1] == Encode(h)[1];
  }

  /** The second octet with its marker bit flipped. */
  function FlipMarker(b: Octet): Octet {
    if b < 128 then b + 128 else b - 128
  }

  /** The marker bit never changes the detected payload type. */
  lemma MarkerIgnored(data: seq<Octet>)
    requires |data| >= 2
    ensures ParseBackendHeader(data[1 := FlipMarker(data[1])]) == ParseBackendHeader(data)
    ensures ParseMjpegHeader(data[1 := FlipMarker(data[1])]) == ParseMjpegHeader(data)
  {
  }

  /** The two servers agree on every datagram that holds a full fixed header. */
  lemma ServersAgreeOnFullHeaders(data: seq<Octet>)
    requires |data| >= MinHeaderLength
    ensures ParseMjpegHeader(data) == ParseBackendHeader(data)
  {
  }

  /** Between 2 and 11 octets the mjpeg server reports a payload type where the backend reports a short packet. */
  lemma ShortDatagramsDiffer(data: seq<Octet>)
    requires 2 <= |data| < MinHeaderLength
    ensures ParseBackendHeader(data) == Failure(TooShort(|data|))
    ensures ParseMjpegHeader(data).Success?
  {
  }
}

/**
 * The part of both `do_GET` handlers that runs before any response is sent:
 * the `/mjpeg` route check, the query-string loop that fills `params`, the
 * `int()` conversion of `port`, and (backend only) the refusal of an
 * incomplete endpoint.
 */
module Query {
  import opened Wrappers
  import opened Text

  type Params = map<string, string>

  /** The key of one `&`-separated piece, when the piece holds an `=`. */
  function KeyOf(piece: string): Option<string> {
    match SplitFirst(piece, '=')
    case None => None
    case Some((key, _)) => Some(key)
  }

  /** The dict the loop builds from the pieces, in order: a later piece overwrites an earlier key. */
  function ParamsOf(pieces: seq<string>): Params {
    if pieces == [] then map[]
    else
      var earlier := ParamsOf(pieces[..|pieces| - 1]);
      match SplitFirst(pieces[|pieces| - 1], '=')
      case None => earlier
      case Some((key, value)) => earlier[key := value]
  }

  /** The dict the `&`-split loop builds: each piece that holds `=` sets its key to the text after the first `=`. */
  method ParseParams(query: string) returns (params: Params)
    ensures params == ParamsOf(Split(query, '&'))
  {
    var pieces := Split(query, '&');
    params := map[];
    for i := 0 to |pieces|
      invariant params == ParamsOf(pieces[..i])
    {
      assert pieces[..i + 1][..i] == pieces[..i];
      match SplitFirst(pieces[i], '=') {
        case Some((key, value)) =>
          params := params[key := value];
        case None =>
      }
    }
    assert pieces[..|pieces|] == pieces;
  }

  /** The index of the last piece with the given key. */
  function LastWithKey(pieces: seq<string>, key: string): (r: Option<nat>)
    ensures r.None? ==> forall j :: 0 <= j < |pieces| ==> KeyOf(pieces[j]) != Some(key)
    ensures r.Some? ==> r.value < |pieces| && KeyOf(pieces[r.value]) == Some(key)
    ensures r.Some? ==> forall j :: r.value < j < |pieces| ==> KeyOf(pieces[j]) != Some(key)
  {
    if pieces == [] then None
    else if KeyOf(pieces[|pieces| - 1]) == Some(key) then Some(|pieces| - 1)
    else LastWithKey(pieces[..|pieces| - 1], key)
  }

  /** A key is present exactly when some piece names it, and it holds the value of the last such piece. */
  lemma {:induction false} LastPieceWins(pieces: seq<string>, key: string)
    ensures LastWithKey(pieces, key).None? ==> key !in ParamsOf(pieces)
    ensures LastWithKey(pieces, key).Some? ==>
      key in ParamsOf(pieces) && Some(ParamsOf(pieces)[key]) == ValueOf(pieces[LastWithKey(pieces, key).value])
  {
    if pieces != [] {
      var init := pieces[..|pieces| - 1];
      LastPieceWins(init, key);
      if KeyOf(pieces[|pieces| - 1]) != Some(key) {
        var r := LastWithKey(init, key);
        if r.Some? {
          assert pieces[r.value] == init[r.value];
        }
      }
    }
  }

  /** The value of one piece, when the piece holds an `=`. */
  function ValueOf(piece: string): Option<string> {
    match SplitFirst(piece, '=')
    case None => None
    case Some((_, value)) => Some(value)
  }

  /** The params of the request path, when it has a query (`'?' in self.path`). */
  function QueryParams(path: string): Option<Params> {
    match SplitFirst(path, '?')
    case None => None
    case Some((_, query)) => Some(ParamsOf(Split(query, '&')))
  }

  /** Splitting a string extended by one more `c`-free piece adds that piece at the end. */
  lemma {:induction false} SplitAppend(s: string, c: char, t: string)
    requires c !in t
    ensures Split(s + [c] + t, c) == Split(s, c) + [t]
    decreases |s|
  {
    var u := s + [c] + t;
    match IndexOf(s, c)
    case None =>
      IndexOfAfter(s, c, t);
      assert u[..|s|] == s && u[|s| + 1..] == t;
      assert Split(u, c) == [s] + Split(t, c);
    case Some(i) =>
      var rest := s[i + 1..] + [c] + t;
      assert u == s[..i] + [c] + rest;
      IndexOfAfter(s[..i], c, rest);
      assert u[..i] == s[..i] && u[i + 1..] == rest;
      assert Split(u, c) == [s[..i]] + Split(rest, c);
      SplitAppend(s[i + 1..], c, t);
      assert Split(s, c) == [s[..i]] + Split(s[i + 1..], c);
  }

  /** Appending `&key=value` to a path with a query sets that key, overriding any earlier value. */
  lemma LaterKeyOverrides(path: string, key: string, value: string)
    requires '?' in path
    requires '=' !in key && '&' !in key && '&' !in value
    ensures QueryParams(path + "&" + key + "=" + value).Some?
    ensures QueryParams(path + "&" + key + "=" + value).value == QueryParams(path).value[key := value]
  {
    var (before, query) := SplitFirst(path, '?').value;
    var piece := key + "=" + value;
    assert '&' !in piece by {
      assert piece == key + ['='] + value;
    }
    var longer := path + "&" + key + "=" + value;
    assert longer == before + ['?'] + (query + ['&'] + piece);
    SplitFirstJoin(before, '?', query + ['&'] + piece);
    assert QueryParams(longer) == Some(ParamsOf(Split(query + ['&'] + piece, '&')));
    SplitAppend(query, '&', piece);
    var ps := Split(query, '&') + [piece];
    assert ps[..|ps| - 1] == Split(query, '&');
    SplitFirstJoin(key, '=', value);
    assert ParamsOf(ps) == ParamsOf(Split(query, '&'))[key := value];
  }

  // ---------------------------------------------------------------------------
  // backend_server.py: do_GET and the head of _handle_stream_request
  // ---------------------------------------------------------------------------

  /** A validated stream request: the endpoint is non-empty and the port non-zero. */
  datatype StreamRequest = StreamRequest(address: string, port: nat, forceDetect: bool)

  /** Why a request was answered before any stream work: 404 off the route, 400 otherwise. */
  datatype Rejection = NotFound | InvalidPort | MissingEndpoint {
    function Code(): int {
      if NotFound? then 404 else 400
    }
  }

  /** The port value when `int(params['port'])` fails: Python raises ValueError. */
  predicate BadPort(params: Params) {
    "port" in params && ParseDecimal(params["port"]).None?
  }

  /** The backend's decision for a GET path: the request it serves, or the error it sends instead. */
  function BackendRequest(path: string): (r: Result<StreamRequest, Rejection>)
    ensures !StartsWith(path, "/mjpeg") <==> r == Failure(NotFound)
    ensures r == Failure(InvalidPort) <==> StartsWith(path, "/mjpeg") && QueryParams(path).Some? && BadPort(QueryParams(path).value)
    ensures r.Success? ==> QueryParams(path).Some?
    ensures StartsWith(path, "/mjpeg") && QueryParams(path).Some? && !BadPort(QueryParams(path).value)
      && "ip" in QueryParams(path).value && QueryParams(path).value["ip"] != ""
      && "port" in QueryParams(path).value && ParseDecimal(QueryParams(path).value["port"]) != Some(0)
      ==> r.Success?
    ensures r.Success? && QueryParams(path).Some? ==>
      var params := QueryParams(path).value;
      && "ip" in params && params["ip"] == r.value.address != ""
      && "port" in params && ParseDecimal(params["port"]) == Some(r.value.port) && r.value.port != 0
      && (r.value.forceDetect <==> "force_detect" in params && Lower(params["force_detect"]) == "true")
  {
    if !StartsWith(path, "/mjpeg") then Failure(NotFound)
    else match QueryParams(path)
      case None => Failure(MissingEndpoint)
      case Some(params) =>
        if BadPort(params) then Failure(InvalidPort)
        else if "ip" !in params || params["ip"] == "" || "port" !in params || ParseDecimal(params["port"]) == Some(0) then
          Failure(MissingEndpoint)
        else
          Success(StreamRequest(params["ip"], ParseDecimal(params["port"]).value,
                                "force_detect" in params && Lower(params["force_detect"]) == "true"))
  }

  /** The backend's parameter handling, statement by statement. */
  method RouteBackend(path: string) returns (r: Result<StreamRequest, Rejection>)
    ensures r == BackendRequest(path)
  {
    if !StartsWith(path, "/mjpeg") {
      return Failure(NotFound);
    }
    var address: Option<string> := None;
    var port: Option<nat> := None;
    var forceDetect := false;
    match SplitFirst(path, '?') {
      case Some((_, query)) =>
        var params := ParseParams(query);
        if "ip" in params {
          address := Some(params["ip"]);
        }
        if "port" in params {
          match ParseDecimal(params["port"]) {
            case None => return Failure(InvalidPort);
            case Some(p) => port := Some(p);
          }
        }
        if "force_detect" in params {
          forceDetect := Lower(params["force_detect"]) == "true";
        }
      case None =>
    }
    // `if not multicast_address or not multicast_port`: None, "" and 0 are all falsy
    if address == None || address.value == "" || port == None || port.value == 0 {
      return Failure(MissingEndpoint);
    }
    r := Success(StreamRequest(address.value, port.value, forceDetect));
  }

  /** The text of a `force_detect` value. */
  function FlagText(b: bool): string {
    if b then "true" else "false"
  }

  lemma FlagTextReadsBack(b: bool)
    ensures (Lower(FlagText(b)) == "true") == b
  {
    if b {
      assert Lower("true") == "true";
    } else {
      assert Lower("false")[0] == 'f';
    }
  }

  /** The `key=value` pieces of a request for an endpoint. */
  function RequestFields(req: StreamRequest): seq<string> {
    ["ip=" + req.address, "port=" + NatToDecimal(req.port), "force_detect=" + FlagText(req.forceDetect)]
  }

  /** The request path a client sends for an endpoint. */
  function BackendPath(req: StreamRequest): string {
    "/mjpeg" + ['?'] + Join(RequestFields(req), '&')
  }

  lemma ThreeKeys(a: string, b: string, c: string, x: string, y: string, z: string)
    requires '=' !in a && '=' !in b && '=' !in c
    requires a != b && b != c && a != c
    ensures ParamsOf([a + "=" + x, b + "=" + y, c + "=" + z]) == map[a := x, b := y, c := z]
  {
    var ps := [a + "=" + x, b + "=" + y, c + "=" + z];
    SplitFirstJoin(a, '=', x);
    SplitFirstJoin(b, '=', y);
    SplitFirstJoin(c, '=', z);
    assert ps[..1][..0] == [];
    assert ParamsOf(ps[..1]) == map[a := x];
    assert ps[..2][..1] == ps[..1];
    assert ParamsOf(ps[..2]) == map[a := x, b := y];
    assert ps[..2] == ps[..|ps| - 1];
  }

  lemma NoAmpersand(key: string, value: string)
    requires '&' !in key && '&' !in value
    ensures '&' !in key + "=" + value
  {
    assert key + "=" + value == key + ['='] + value;
  }

  lemma FieldsHoldNoAmpersand(req: StreamRequest)
    requires '&' !in req.address
    ensures Split(Join(RequestFields(req), '&'), '&') == RequestFields(req)
  {
    NoAmpersand("ip", req.address);
    assert !IsDigit('&');
    NoAmpersand("port", NatToDecimal(req.port));
    NoAmpersand("force_detect", FlagText(req.forceDetect));
    SplitJoin(RequestFields(req), '&');
  }

  lemma FieldsParams(req: StreamRequest)
    ensures ParamsOf(RequestFields(req)) == map["ip" := req.address, "port" := NatToDecimal(req.port),
                                                "force_detect" := FlagText(req.forceDetect)]
  {
    assert "ip" + "=" == "ip=" && "port" + "=" == "port=" && "force_detect" + "=" == "force_detect=";
    ThreeKeys("ip", "port", "force_detect", req.address, NatToDecimal(req.port), FlagText(req.forceDetect));
  }

  /** The parameters of a path written by `BackendPath`: one per field. */
  lemma {:induction false} BackendPathParams(req: StreamRequest)
    requires '&' !in req.address
    ensures StartsWith(BackendPath(req), "/mjpeg")
    ensures QueryParams(BackendPath(req)) == Some(map["ip" := req.address, "port" := NatToDecimal(req.port),
                                                      "force_detect" := FlagText(req.forceDetect)])
  {
    SplitFirstJoin("/mjpeg", '?', Join(RequestFields(req), '&'));
    FieldsHoldNoAmpersand(req);
    FieldsParams(req);
  }

  /** Every valid endpoint survives being written into a URL and parsed back, when its address holds no `&`. */
  lemma {:induction false} BackendRequestRoundTrip(req: StreamRequest)
    requires req.address != "" && '&' !in req.address && req.port != 0
    ensures BackendRequest(BackendPath(req)) == Success(req)
  {
    BackendPathParams(req);
    DecimalRoundTrip(req.port);
    FlagTextReadsBack(req.forceDetect);
  }

  // ---------------------------------------------------------------------------
  // mjpeg_server.py: the head of do_GET
  // ---------------------------------------------------------------------------

  /**
   * What the mjpeg server does before its 200: 404 off the route, 400 for a
   * non-numeric port, otherwise stream with whatever of `ip` and `port` was
   * given (a missing one is an unbound local variable later on).
   */
  datatype MjpegRoute = Unrouted | UnparsablePort | Stream(address: Option<string>, port: Option<nat>)

  function MjpegRequest(path: string): (r: MjpegRoute)
    ensures r.Unrouted? <==> !StartsWith(path, "/mjpeg")
    ensures r.UnparsablePort? <==> StartsWith(path, "/mjpeg") && QueryParams(path).Some? && BadPort(QueryParams(path).value)
    ensures r.Stream? ==> (r.address.Some? <==> QueryParams(path).Some? && "ip" in QueryParams(path).value)
    ensures r.Stream? && r.address.Some? ==> r.address.value == QueryParams(path).value["ip"]
    ensures r.Stream? ==> (r.port.Some? <==> QueryParams(path).Some? && "port" in QueryParams(path).value)
    ensures r.Stream? && r.port.Some? ==> ParseDecimal(QueryParams(path).value["port"]) == r.port
  {
    if !StartsWith(path, "/mjpeg") then Unrouted
    else match QueryParams(path)
      case None => Stream(None, None)
      case Some(params) =>
        if BadPort(params) then UnparsablePort
        else Stream(if "ip" in params then Some(params["ip"]) else None,
                    if "port" in params then ParseDecimal(params["port"]) else None)
  }

  method RouteMjpeg(path: string) returns (r: MjpegRoute)
    ensures r == MjpegRequest(path)
  {
    if !StartsWith(path, "/mjpeg") {
      return Unrouted;
    }
    var address: Option<string> := None;
    var port: Option<nat> := None;
    match SplitFirst(path, '?') {
      case Some((_, query)) =>
        var params := ParseParams(query);
        if "ip" in params {
          address := Some(params["ip"]);
        }
        if "port" in params {
          match ParseDecimal(params["port"]) {
            case None => return UnparsablePort;
            case Some(p) => port := Some(p);
          }
        }
      case None =>
    }
    r := Stream(address, port);
  }

  /** Unlike the backend, the mjpeg server lets an incomplete endpoint through to its 200. */
  lemma MjpegAcceptsMissingEndpoint(path: string)
    requires StartsWith(path, "/mjpeg") && '?' !in path
    ensures BackendRequest(path) == Failure(MissingEndpoint)
    ensures MjpegRequest(path) == Stream(None, None)
  {
  }

  /** The mjpeg server reads the same endpoint out of the same URL. */
  lemma MjpegRequestRoundTrip(req: StreamRequest)
    requires '&' !in req.address
    ensures MjpegRequest(BackendPath(req)) == Stream(Some(req.address), Some(req.port))
  {
    BackendPathParams(req);
    DecimalRoundTrip(req.port);
  }
}

/**
 * One unit of work and the `RequestResult` it yields: `make_http_request`
 * and `make_websocket_request`. The network, the URL library and the clock
 * are inputs: an HTTP call is a function from the request that was built to
 * its outcome, and each WebSocket library call is given by its outcome and
 * the time it took. Durations are in nanoseconds.
 */
module Requests {
  import opened Wrappers
  import opened Text

  const NanosPerMilli: nat := 1_000_000
  const NanosPerSecond: nat := 1_000_000_000

  /** An HTTP status code, a number from 100 to 999. */
  type StatusCode = c: int | 100 <= c <= 999 witness 200

  /** `StatusCode::is_success`: the 2xx class, the codes whose first digit is 2. */
  predicate IsSuccess(c: StatusCode): (b: bool)
    ensures b <==> ThreeDigits(c)[0] == '2'
  {
    200 <= c <= 299
  }

  /** The seven methods the HTTP executor knows. */
  datatype HttpMethod = Get | Post | Put | Delete | Patch | Head | Options

  function MethodName(m: HttpMethod): string {
    match m
    case Get => "GET"
    case Post => "POST"
    case Put => "PUT"
    case Delete => "DELETE"
    case Patch => "PATCH"
    case Head => "HEAD"
    case Options => "OPTIONS"
  }

  /** The `match` on `method_str.to_uppercase()`: a method is recognised when its upper case is one of the seven names. */
  function DecodeMethod(methodStr: string): (r: Option<HttpMethod>)
    ensures r.Some? ==> MethodName(r.value) == ToUpper(methodStr)
    ensures r.None? ==> forall m :: MethodName(m) != ToUpper(methodStr)
  {
    var u := ToUpper(methodStr);
    if u == "GET" then Some(Get)
    else if u == "POST" then Some(Post)
    else if u == "PUT" then Some(Put)
    else if u == "DELETE" then Some(Delete)
    else if u == "PATCH" then Some(Patch)
    else if u == "HEAD" then Some(Head)
    else if u == "OPTIONS" then Some(Options)
    else None
  }

  /**
   * Method names are matched without regard to case: any spelling of a
   * method name in upper- or lower-case ASCII letters decodes to that method.
   */
  lemma DecodeMethodIgnoresCase(m: HttpMethod, s: string)
    requires |s| == |MethodName(m)|
    requires forall k :: 0 <= k < |s| ==> AsciiUpper(s[k]) == MethodName(m)[k]
    ensures DecodeMethod(s) == Some(m)
  {
    forall k | 0 <= k < |s| ensures s[k] < '\U{80}' {
      assert AsciiUpper(s[k]) == MethodName(m)[k];
    }
    ToUpperAscii(s);
    assert ToUpper(s) == MethodName(m);
  }

  /** What one work unit reports: `RequestResult`. */
  datatype RequestResult = RequestResult(durationNanos: nat, success: bool, statusCode: Option<StatusCode>, error: Option<string>)

  /**
   * What every result the two executors produce satisfies: a result
   * carries an error text exactly when it is a failure, and a result that
   * carries a status code succeeded exactly when that code is 2xx.
   */
  predicate WellFormed(r: RequestResult) {
    && (r.success <==> r.error.None?)
    && (r.statusCode.Some? ==> (r.success <==> IsSuccess(r.statusCode.value)))
  }

  /** The request `make_http_request` builds: method, URL, optional body and the headers. */
  datatype HttpRequest = HttpRequest(verb: HttpMethod, url: string, body: Option<string>, headers: map<string, string>)

  /** What `send` gives back, with the time elapsed when the status (or the error) was known. */
  datatype HttpOutcome =
    | Response(status: StatusCode, elapsedNanos: nat)
    | TransportError(message: string, elapsedNanos: nat)

  /** The environment of one HTTP call: how long decoding the method took, and the network as a function of the request sent. */
  datatype HttpEnv = HttpEnv(decodeNanos: nat, send: HttpRequest -> HttpOutcome)

  function UnsupportedMethodMessage(methodStr: string): string {
    "不支持的HTTP方法: " + methodStr
  }

  /** `format!("HTTP Status: {}", status)`, with the status rendered by its three digits. */
  function StatusErrorMessage(status: StatusCode): (msg: string)
    ensures |msg| == 16 && msg[..13] == "HTTP Status: "
    ensures (msg[13] as int - 48) * 100 + (msg[14] as int - 48) * 10 + (msg[15] as int - 48) == status
  {
    "HTTP Status: " + ThreeDigits(status)
  }

  /** Two different non-2xx statuses are tallied under two different error texts. */
  lemma StatusErrorMessageInjective(a: StatusCode, b: StatusCode)
    requires StatusErrorMessage(a) == StatusErrorMessage(b)
    ensures a == b
  {
    var p := "HTTP Status: ";
    assert StatusErrorMessage(a)[|p|..] == ThreeDigits(a);
    assert StatusErrorMessage(b)[|p|..] == ThreeDigits(b);
    ThreeDigitsInjective(a, b);
  }

  /**
   * `make_http_request`. An unknown method fails at once, with no status
   * code, and no request is sent. Otherwise the request is sent: a response
   * always yields its status code and succeeds exactly when the status is
   * 2xx, with an error text naming the status otherwise; a transport error
   * yields a failure with the transport's message and no status code.
   */
  function MakeHttpRequest(methodStr: string, url: string, data: Option<string>,
                           headers: map<string, string>, env: HttpEnv): (r: RequestResult)
    ensures WellFormed(r)
    ensures DecodeMethod(methodStr).None? ==>
              r == RequestResult(env.decodeNanos, false, None, Some(UnsupportedMethodMessage(methodStr)))
    ensures DecodeMethod(methodStr).Some? ==>
              var out := env.send(HttpRequest(DecodeMethod(methodStr).value, url, data, headers));
              && r.durationNanos == out.elapsedNanos
              && (r.statusCode.Some? <==> out.Response?)
              && (out.Response? ==> r.statusCode == Some(out.status) && (r.success <==> IsSuccess(out.status))
                                    && (!r.success ==> r.error == Some(StatusErrorMessage(out.status))))
              && (out.TransportError? ==> !r.success && r.error == Some(out.message))
  {
    match DecodeMethod(methodStr)
    case None =>
      RequestResult(env.decodeNanos, false, None, Some(UnsupportedMethodMessage(methodStr)))
    case Some(verb) =>
      var request := HttpRequest(verb, url, data, headers);
      match env.send(request)
      case Response(status, elapsed) =>
        var success := IsSuccess(status);
        RequestResult(elapsed, success, Some(status), if success then None else Some(StatusErrorMessage(status)))
      case TransportError(message, elapsed) =>
        RequestResult(elapsed, false, None, Some(message))
  }

  /** With an unknown method the network is never consulted: the result is the same whatever it would have answered. */
  lemma UnsupportedMethodSendsNothing(methodStr: string, url: string, data: Option<string>,
                                      headers: map<string, string>, decodeNanos: nat,
                                      send1: HttpRequest -> HttpOutcome, send2: HttpRequest -> HttpOutcome)
    requires DecodeMethod(methodStr).None?
    ensures MakeHttpRequest(methodStr, url, data, headers, HttpEnv(decodeNanos, send1))
         == MakeHttpRequest(methodStr, url, data, headers, HttpEnv(decodeNanos, send2))
  {
  }

  /** One call into the URL or WebSocket library: the error text if it failed, and the time it took. */
  datatype LibraryCall = LibraryCall(error: Option<string>, nanos: nat)

  /**
   * The environment of one WebSocket session: `Url::parse`, `connect_async`
   * and the single `send`, then how far the hold sleep overran and how long
   * `close` took (its outcome is ignored).
   */
  datatype WsEnv = WsEnv(parse: LibraryCall, connect: LibraryCall, send: LibraryCall, sleepOverrunNanos: nat, closeNanos: nat)

  function UrlErrorMessage(e: string): string { "URL解析错误: " + e }
  function ConnectErrorMessage(e: string): string { "WebSocket连接失败: " + e }
  function SendErrorMessage(e: string): string { "WebSocket消息发送失败: " + e }

  /**
   * `make_websocket_request`. The result never has a status code. It
   * succeeds exactly when the URL parses, the connection opens and, if a
   * message is configured, its one send succeeds; a failure carries the
   * error text of the first step that failed. A held session counts once
   * and lasts at least the hold time.
   */
  function MakeWebSocketRequest(message: Option<string>, holdSecs: Option<nat>, env: WsEnv): (r: RequestResult)
    ensures WellFormed(r) && r.statusCode.None?
    ensures r.success <==> env.parse.error.None? && env.connect.error.None? && (message.Some? ==> env.send.error.None?)
    ensures env.parse.error.Some? ==> r.error == Some(UrlErrorMessage(env.parse.error.value))
    ensures env.parse.error.None? && env.connect.error.Some? ==> r.error == Some(ConnectErrorMessage(env.connect.error.value))
    ensures env.parse.error.None? && env.connect.error.None? && message.Some? && env.send.error.Some? ==>
              r.error == Some(SendErrorMessage(env.send.error.value))
    ensures r.success && holdSecs.Some? ==> r.durationNanos >= holdSecs.value * NanosPerSecond
    ensures r.durationNanos >= env.parse.nanos
  {
    var parsed := env.parse.nanos;
    if env.parse.error.Some? then
      RequestResult(parsed, false, None, Some(UrlErrorMessage(env.parse.error.value)))
    else
      var connected := parsed + env.connect.nanos;
      if env.connect.error.Some? then
        RequestResult(connected, false, None, Some(ConnectErrorMessage(env.connect.error.value)))
      else
        var sent := if message.Some? then connected + env.send.nanos else connected;
        if message.Some? && env.send.error.Some? then
          RequestResult(sent, false, None, Some(SendErrorMessage(env.send.error.value)))
        else if holdSecs.Some? then
          // measured after the sleep, before the close
          RequestResult(sent + holdSecs.value * NanosPerSecond + env.sleepOverrunNanos, true, None, None)
        else
          // measured after the close
          RequestResult(sent + env.closeNanos, true, None, None)
  }

  /** Without a message nothing is sent: the send's outcome cannot change the result. */
  lemma NoMessageNoSend(holdSecs: Option<nat>, env: WsEnv, send: LibraryCall)
    ensures MakeWebSocketRequest(None, holdSecs, env) == MakeWebSocketRequest(None, holdSecs, env.(send := send))
  {
  }
}

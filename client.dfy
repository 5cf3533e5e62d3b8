/**
 * The HTTP client of the Robot web service (internal/client/client.go):
 * client construction, request construction and the classification of a
 * response into a result or an error.
 *
 * The network transport and the JSON decoder are not modelled; what they do
 * for one call is given to `Request` as an `Exchange` value.
 */
module HttpClient {
  import opened Wrappers

  /** The fixed service endpoint every path is appended to. */
  const BaseURL: string := "https://robot-ws.your-server.de"

  /** The timeout, in seconds, of the underlying HTTP client. */
  const TimeoutSeconds: nat := 30

  const ContentTypeJson: string := "application/json"

  datatype Client = Client(username: string, password: string, timeoutSeconds: nat)

  /** Creates a client holding the credentials verbatim and a 30-second timeout. */
  function NewClient(username: string, password: string): (c: Client)
    ensures c.username == username && c.password == password
    ensures c.timeoutSeconds == 30
  {
    Client(username, password, TimeoutSeconds)
  }

  /** A JSON document, as far as request bodies need one. */
  datatype Json =
    | JString(str: string)
    | JArray(items: seq<Json>)
    | JObject(members: seq<(string, Json)>)

  /** The value a reader finds under `key` in a JSON object (the first
      member with that key), or `None`. */
  function Member(j: Json, key: string): Option<Json> {
    if j.JObject? then MemberIn(j.members, key) else None
  }

  function MemberIn(members: seq<(string, Json)>, key: string): Option<Json> {
    if members == [] then None
    else if members[0].0 == key then Some(members[0].1)
    else MemberIn(members[1..], key)
  }

  /** A reader looks at the first member, then at the rest. */
  lemma MemberInCons(first: (string, Json), rest: seq<(string, Json)>)
    ensures forall key :: MemberIn([first] + rest, key) ==
                          (if first.0 == key then Some(first.1) else MemberIn(rest, key))
  {
    assert ([first] + rest)[1..] == rest;
  }

  datatype Credentials = Credentials(username: string, password: string)

  /** The request handed to the transport. Basic authentication is kept as the
      credentials; their base64 encoding is left to the transport. */
  datatype HttpRequest = HttpRequest(
    verb: string,
    url: string,
    body: Option<Json>,
    header: map<string, string>,
    basicAuth: Option<Credentials>)

  /** The structured error body `{"error": {"code": ..., "message": ...}}`. */
  datatype ErrorResponse = ErrorResponse(code: string, message: string)

  /**
   * What the outside world does with one request:
   * - `Rejected`: the request could not be built (method or URL refused);
   * - `TransportFailure`: the round trip failed (connection, TLS, timeout);
   * - `Response`: a status arrived; `asError` is what the body decodes to as
   *   an `ErrorResponse` (None: it does not decode), and `asResult` is what it
   *   decodes to in the caller's result shape, or the decoder's error text.
   */
  datatype Exchange<R> =
    | Rejected(reason: string)
    | TransportFailure(reason: string)
    | Response(status: int, asError: Option<ErrorResponse>, asResult: Result<R, string>)

  /** The errors `Request` returns. */
  datatype Error =
    | InvalidRequest(reason: string)
    | TransportError(reason: string)
    | HttpStatus(status: int, message: Option<string>)
    | DecodeError(reason: string)

  /** The error `Request` returns for a given exchange, if any. */
  function ErrorOf<R>(reply: Exchange<R>, wantsResult: bool): (e: Option<Error>)
    ensures reply.Rejected? ==> e == Some(InvalidRequest(reply.reason))
    ensures reply.TransportFailure? ==> e == Some(TransportError(reply.reason))
    ensures reply.Response? ==> (reply.status >= 400 <==> e.Some? && e.value.HttpStatus?)
    ensures e.Some? && e.value.HttpStatus? ==>
      reply.Response? && e.value.status == reply.status &&
      (e.value.message.Some? <==> reply.asError.Some?) &&
      (reply.asError.Some? ==> e.value.message == Some(reply.asError.value.message))
    ensures e.Some? && e.value.DecodeError? <==>
      reply.Response? && reply.status < 400 && wantsResult && reply.asResult.Failure?
    ensures e.Some? && e.value.DecodeError? ==> e.value.reason == reply.asResult.error
    ensures e.None? <==> reply.Response? && reply.status < 400 && !(wantsResult && reply.asResult.Failure?)
  {
    match reply
    case Rejected(reason) => Some(InvalidRequest(reason))
    case TransportFailure(reason) => Some(TransportError(reason))
    case Response(status, asError, asResult) =>
      if status >= 400 then
        if asError.None? then Some(HttpStatus(status, None))
        else Some(HttpStatus(status, Some(asError.value.message)))
      else if wantsResult && asResult.Failure? then Some(DecodeError(asResult.error))
      else None
  }

  /**
   * Builds the request for `verb` and `path`, hands it to the transport,
   * and classifies what comes back. `sent` is the request the transport saw.
   */
  method Request<R>(c: Client, verb: string, path: string, body: Option<Json>,
                    wantsResult: bool, reply: Exchange<R>)
    returns (err: Option<Error>, result: Option<R>, sent: Option<HttpRequest>)
    ensures sent.None? <==> reply.Rejected?
    ensures sent.Some? ==>
      sent.value.verb == verb &&
      sent.value.url == BaseURL + path &&
      sent.value.body == body &&
      sent.value.basicAuth == Some(Credentials(c.username, c.password)) &&
      sent.value.header == map["Content-Type" := ContentTypeJson, "Accept" := ContentTypeJson]
    ensures err == ErrorOf(reply, wantsResult)
    ensures result.Some? <==> err.None? && wantsResult
    ensures result.Some? ==> reply.Response? && reply.asResult == Success(result.value)
  {
    result, sent := None, None;
    if reply.Rejected? {
      err := Some(InvalidRequest(reply.reason));
      return;
    }
    var req := HttpRequest(verb, BaseURL + path, body, map[], None);
    req := req.(basicAuth := Some(Credentials(c.username, c.password)));
    req := req.(header := req.header["Content-Type" := ContentTypeJson]);
    req := req.(header := req.header["Accept" := ContentTypeJson]);
    sent := Some(req);

    if reply.TransportFailure? {
      err := Some(TransportError(reply.reason));
      return;
    }
    if reply.status >= 400 {
      if reply.asError.None? {
        err := Some(HttpStatus(reply.status, None));
      } else {
        err := Some(HttpStatus(reply.status, Some(reply.asError.value.message)));
      }
      return;
    }
    if wantsResult {
      if reply.asResult.Failure? {
        err := Some(DecodeError(reply.asResult.error));
        return;
      }
      result := Some(reply.asResult.value);
    }
    err := None;
  }

  // ---------------------------------------------------------------------
  // Error text: Go's `%d` and the two `HTTP error` formats.

  predicate IsDigit(ch: char) {
    '0' <= ch <= '9'
  }

  predicate AllDigits(s: string) {
    forall i | 0 <= i < |s| :: IsDigit(s[i])
  }

  function DigitChar(d: nat): (ch: char)
    requires d < 10
    ensures IsDigit(ch)
  {
    "0123456789"[d]
  }

  function DigitValue(ch: char): (d: nat)
    requires IsDigit(ch)
    ensures d < 10
  {
    (ch as int) - ('0' as int)
  }

  /** The decimal digits of `n`, most significant first, as `%d` prints them:
      no leading zero, except for zero itself. */
  function NatToDecimal(n: nat): (s: string)
    ensures |s| > 0 && AllDigits(s)
    ensures s[0] == '0' ==> n == 0 && s == "0"
    decreases n
  {
    if n < 10 then [DigitChar(n)] else NatToDecimal(n / 10) + [DigitChar(n % 10)]
  }

  function DecimalToNat(s: string): nat
    requires AllDigits(s)
  {
    if s == [] then 0 else DecimalToNat(s[..|s| - 1]) * 10 + DigitValue(s[|s| - 1])
  }

  /** `%d` of a Go int: a minus sign for negative values. */
  function IntToDecimal(i: int): string {
    if i < 0 then "-" + NatToDecimal(-i) else NatToDecimal(i)
  }

  /** `"HTTP error %d"` when the error body did not decode, and
      `"HTTP error %d: %s"` with the service's message when it did. */
  const HttpErrorPrefix: string := "HTTP error "

  function MessageTail(message: Option<string>): string {
    if message.Some? then ": " + message.value else ""
  }

  /** The text of an error, as `err.Error()` gives it: the reason of a
      request, transport or decode error unchanged, and for an HTTP status
      `HTTP error ` followed by the status (see `HttpErrorTextRoundTrip`). */
  function Text(e: Error): (t: string)
    ensures !e.HttpStatus? ==> t == e.reason
    ensures e.HttpStatus? ==> |t| > |HttpErrorPrefix| && t[..|HttpErrorPrefix|] == HttpErrorPrefix
  {
    match e
    case InvalidRequest(reason) => reason
    case TransportError(reason) => reason
    case DecodeError(reason) => reason
    case HttpStatus(status, message) => HttpErrorPrefix + (IntToDecimal(status) + MessageTail(message))
  }

  /** The length of the longest prefix of `s` made of digits. */
  function DigitSpan(s: string): (k: nat)
    ensures k <= |s| && AllDigits(s[..k])
    ensures k < |s| ==> !IsDigit(s[k])
  {
    if s == [] || !IsDigit(s[0]) then 0
    else
      var k := 1 + DigitSpan(s[1..]);
      assert s[..k] == [s[0]] + s[1..][..k - 1];
      k
  }

  /** Reads back the status and message from the text of an HTTP error. */
  function ParseHttpError(t: string): Option<(int, Option<string>)> {
    if |t| < |HttpErrorPrefix| || t[..|HttpErrorPrefix|] != HttpErrorPrefix then None
    else
      var r := t[|HttpErrorPrefix|..];
      if |r| > 0 && r[0] == '-' then ParseStatus(r[1..], true) else ParseStatus(r, false)
  }

  /** Reads `<digits>` or `<digits>: <message>`, negating the number when the
      sign was `-`. */
  function ParseStatus(r: string, negative: bool): Option<(int, Option<string>)> {
    var k := DigitSpan(r);
    if k == 0 then None
    else
      var n := DecimalToNat(r[..k]);
      var status: int := if negative then -(n as int) else n;
      var rest := r[k..];
      if rest == [] then Some((status, None))
      else if |rest| >= 2 && rest[..2] == ": " then Some((status, Some(rest[2..])))
      else None
  }

  lemma {:induction false} DecimalRoundTrip(n: nat)
    ensures DecimalToNat(NatToDecimal(n)) == n
  {
    if n >= 10 {
      var s := NatToDecimal(n);
      assert s[..|s| - 1] == NatToDecimal(n / 10);
      DecimalRoundTrip(n / 10);
    }
  }

  lemma {:induction false} DigitSpanExact(s: string, k: nat)
    requires k <= |s| && AllDigits(s[..k])
    requires k < |s| ==> !IsDigit(s[k])
    ensures DigitSpan(s) == k
  {
    if k > 0 {
      assert IsDigit(s[..k][0]);
      assert s[1..][..k - 1] == s[..k][1..];
      DigitSpanExact(s[1..], k - 1);
    }
  }

  lemma ParseStatusOfDecimal(n: nat, message: Option<string>, negative: bool)
    ensures ParseStatus(NatToDecimal(n) + MessageTail(message), negative)
            == Some((if negative then -(n as int) else n as int, message))
  {
    var d := NatToDecimal(n);
    var tail := MessageTail(message);
    var r := d + tail;
    assert r[..|d|] == d;
    assert r[|d|..] == tail;
    DigitSpanExact(r, |d|);
    DecimalRoundTrip(n);
    if message.Some? {
      assert tail[..2] == ": ";
      assert tail[2..] == message.value;
    }
  }

  lemma ParseAfterPrefix(r: string)
    ensures ParseHttpError(HttpErrorPrefix + r) ==
      if |r| > 0 && r[0] == '-' then ParseStatus(r[1..], true) else ParseStatus(r, false)
  {
    var t := HttpErrorPrefix + r;
    assert t[..|HttpErrorPrefix|] == HttpErrorPrefix;
    assert t[|HttpErrorPrefix|..] == r;
  }

  lemma RoundTripNonNegative(n: nat, message: Option<string>)
    ensures ParseHttpError(Text(HttpStatus(n, message))) == Some((n as int, message))
  {
    var u := NatToDecimal(n) + MessageTail(message);
    assert Text(HttpStatus(n, message)) == HttpErrorPrefix + u;
    assert IsDigit(u[0]);
    ParseAfterPrefix(u);
    ParseStatusOfDecimal(n, message, false);
  }

  lemma RoundTripNegative(n: nat, message: Option<string>)
    requires n > 0
    ensures ParseHttpError(Text(HttpStatus(-(n as int), message))) == Some((-(n as int), message))
  {
    var u := NatToDecimal(n) + MessageTail(message);
    var r := IntToDecimal(-(n as int)) + MessageTail(message);
    assert IntToDecimal(-(n as int)) == "-" + NatToDecimal(n);
    assert r == "-" + u;
    assert r[1..] == u;
    assert Text(HttpStatus(-(n as int), message)) == HttpErrorPrefix + r;
    ParseAfterPrefix(r);
    ParseStatusOfDecimal(n, message, true);
  }

  /** The text of an HTTP error carries its status and, when the error body
      decoded, the service's message, and both can be read back from it. */
  lemma HttpErrorTextRoundTrip(status: int, message: Option<string>)
    ensures ParseHttpError(Text(HttpStatus(status, message))) == Some((status, message))
  {
    if status < 0 {
      RoundTripNegative(-status, message);
    } else {
      RoundTripNonNegative(status, message);
    }
  }
}

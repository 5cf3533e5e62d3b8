/**
 * The server operations of the Robot client (internal/client/server.go):
 * the `Server` record, the option records, and one operation per endpoint,
 * each a single call of `HttpClient.Request`.
 */
module ServerApi {
  import opened Wrappers
  import opened HttpClient

  /** A dedicated server as the service reports it. */
  datatype Server = Server(
    id: string,
    name: string,
    serverIP: string,
    serverIPv6: string,
    product: string,
    datacenter: string,
    status: string,
    rescueOS: string,
    cancelled: bool,
    paid: bool,
    traffic: string,
    flatrate: bool,
    distributed: bool)

  /** Options of a reset; `resetType` is e.g. "hw" or "sw". */
  datatype ServerResetOptions = ServerResetOptions(resetType: string)

  /** Options of rescue mode; `os` is e.g. "linux64". */
  datatype ServerRescueOptions = ServerRescueOptions(os: string, sshKeys: seq<string>)

  /** The response envelopes `{"server": ...}`. */
  datatype ServerEnvelope = ServerEnvelope(server: Server)
  datatype ServerListEnvelope = ServerListEnvelope(servers: seq<Server>)

  // ---------------------------------------------------------------------
  // The JSON keys of `Server`.

  datatype ServerField =
    | IdField | NameField | ServerIPField | ServerIPv6Field | ProductField
    | DatacenterField | StatusField | RescueOSField | CancelledField | PaidField
    | TrafficField | FlatrateField | DistributedField

  /** The key each field of `Server` is read from in a response body. */
  function JsonKey(f: ServerField): string {
    match f
    case IdField => "id"
    case NameField => "name"
    case ServerIPField => "server_ip"
    case ServerIPv6Field => "server_ipv6"
    case ProductField => "product"
    case DatacenterField => "dc"
    case StatusField => "status"
    case RescueOSField => "rescue"
    case CancelledField => "cancelled"
    case PaidField => "paid"
    case TrafficField => "traffic"
    case FlatrateField => "flatrate"
    case DistributedField => "distributed"
  }

  /** No two fields share a key, so each key of a response fills one field. */
  lemma JsonKeysDistinct(f: ServerField, g: ServerField)
    requires JsonKey(f) == JsonKey(g)
    ensures f == g
  {
  }

  // ---------------------------------------------------------------------
  // The table of operations.

  const MethodGet: string := "GET"
  const MethodPost: string := "POST"
  const MethodDelete: string := "DELETE"

  /** One call of the API, with its arguments. */
  datatype Call =
    | Get(id: string)
    | List
    | Update(id: string, name: string)
    | Reset(id: string, reset: ServerResetOptions)
    | EnableRescue(id: string, rescue: ServerRescueOptions)
    | DisableRescue(id: string)

  /** How a call goes over the wire: HTTP method, path, JSON body, and
      whether the response body is decoded into a result. */
  datatype Endpoint = Endpoint(verb: string, path: string, body: Option<Json>, decodesResult: bool)

  function ServerPath(id: string): string {
    "/server/" + id
  }

  function StringsJson(ss: seq<string>): (j: seq<Json>)
    ensures |j| == |ss|
    ensures forall i | 0 <= i < |ss| :: j[i] == JString(ss[i])
  {
    if ss == [] then [] else [JString(ss[0])] + StringsJson(ss[1..])
  }

  /** The body of a rename: the one key `name`. */
  function NameBody(name: string): (j: Json)
    ensures Member(j, "name") == Some(JString(name))
    ensures forall key | key != "name" :: Member(j, key).None?
  {
    var members := [("name", JString(name))];
    MemberInCons(members[0], []);
    assert members == [members[0]] + [];
    JObject(members)
  }

  /** The body of a reset: the options under their struct tag `type`. */
  function ResetBody(o: ServerResetOptions): (j: Json)
    ensures Member(j, "type") == Some(JString(o.resetType))
    ensures forall key | key != "type" :: Member(j, key).None?
  {
    var members := [("type", JString(o.resetType))];
    MemberInCons(members[0], []);
    assert members == [members[0]] + [];
    JObject(members)
  }

  /** The body of enabling rescue mode: `os`, and `ssh_keys` as an array
      exactly when there are keys (the tag's `omitempty`). */
  function RescueBody(o: ServerRescueOptions): (j: Json)
    ensures Member(j, "os") == Some(JString(o.os))
    ensures Member(j, "ssh_keys") == if o.sshKeys == [] then None else Some(JArray(StringsJson(o.sshKeys)))
    ensures forall key | key != "os" && key != "ssh_keys" :: Member(j, key).None?
  {
    var keys := if o.sshKeys == [] then [] else [("ssh_keys", JArray(StringsJson(o.sshKeys)))];
    var members := [("os", JString(o.os))] + keys;
    MemberInCons(("os", JString(o.os)), keys);
    if keys == [] then JObject(members)
    else
      MemberInCons(keys[0], []);
      assert keys == [keys[0]] + [];
      JObject(members)
  }

  function EndpointOf(c: Call): (e: Endpoint)
    ensures e.verb == MethodGet <==> c.Get? || c.List?
    ensures e.verb == MethodPost <==> c.Update? || c.Reset? || c.EnableRescue?
    ensures e.verb == MethodDelete <==> c.DisableRescue?
    ensures e.decodesResult <==> c.Get? || c.List? || c.Update?
    ensures e.body.None? <==> c.Get? || c.List? || c.DisableRescue?
    ensures c.List? ==> e.path == "/server"
    ensures c.Get? || c.Update? ==> e.path == ServerPath(c.id)
    ensures c.EnableRescue? || c.DisableRescue? ==> e.path == ServerPath(c.id) + "/rescue"
    ensures c.Reset? ==> e.path == ServerPath(c.id) + "/reset"
    ensures c.Update? ==> e.body == Some(NameBody(c.name))
    ensures c.Reset? ==> e.body == Some(ResetBody(c.reset))
    ensures c.EnableRescue? ==> e.body == Some(RescueBody(c.rescue))
  {
    match c
    case Get(id) => Endpoint(MethodGet, ServerPath(id), None, true)
    case List => Endpoint(MethodGet, "/server", None, true)
    case Update(id, name) => Endpoint(MethodPost, ServerPath(id), Some(NameBody(name)), true)
    case Reset(id, o) => Endpoint(MethodPost, ServerPath(id) + "/reset", Some(ResetBody(o)), false)
    case EnableRescue(id, o) => Endpoint(MethodPost, ServerPath(id) + "/rescue", Some(RescueBody(o)), false)
    case DisableRescue(id) => Endpoint(MethodDelete, ServerPath(id) + "/rescue", None, false)
  }

  lemma {:induction false} StringsJsonInjective(a: seq<string>, b: seq<string>)
    requires StringsJson(a) == StringsJson(b)
    ensures a == b
  {
    assert |a| == |b|;
    forall i | 0 <= i < |a| ensures a[i] == b[i] {
      assert StringsJson(a)[i] == StringsJson(b)[i];
    }
  }

  lemma PathSuffixCancels(x: string, y: string, suffix: string)
    requires ServerPath(x) + suffix == ServerPath(y) + suffix
    ensures x == y
  {
    var px, py := ServerPath(x) + suffix, ServerPath(y) + suffix;
    assert |x| == |y|;
    forall i | 0 <= i < |x| ensures x[i] == y[i] {
      assert px[8 + i] == x[i];
      assert py[8 + i] == y[i];
    }
  }

  /** The first key of a body names the kind of call. */
  lemma BodyFirstKey(c: Call)
    ensures var e := EndpointOf(c);
      e.body.Some? ==>
        (e.body.value.JObject? && |e.body.value.members| > 0 &&
         e.body.value.members[0].0 == (if c.Update? then "name" else if c.Reset? then "type" else "os"))
  {
  }

  /** No two different calls produce the same request: the method, path and
      body together identify the operation and all of its arguments. */
  lemma EndpointInjective(a: Call, b: Call)
    requires EndpointOf(a) == EndpointOf(b)
    ensures a == b
  {
    var e := EndpointOf(a);
    BodyFirstKey(a);
    BodyFirstKey(b);
    match a
    case Get(x) =>
      if b.Get? {
        assert ServerPath(x) + "" == ServerPath(x) && ServerPath(b.id) + "" == ServerPath(b.id);
        PathSuffixCancels(x, b.id, "");
      }
    case List =>
    case Update(x, n) =>
      if b.Update? {
        assert ServerPath(x) + "" == ServerPath(x) && ServerPath(b.id) + "" == ServerPath(b.id);
        PathSuffixCancels(x, b.id, "");
        assert e.body.value.members[0].1 == JString(n);
      }
    case Reset(x, o) =>
      if b.Reset? {
        PathSuffixCancels(x, b.id, "/reset");
        assert e.body.value.members[0].1 == JString(o.resetType);
      }
    case EnableRescue(x, o) =>
      if b.EnableRescue? {
        PathSuffixCancels(x, b.id, "/rescue");
        var o2 := b.rescue;
        assert e.body.value.members[0].1 == JString(o.os);
        assert EndpointOf(b).body.value.members[0].1 == JString(o2.os);
        assert |e.body.value.members| == (if o.sshKeys == [] then 1 else 2);
        assert |e.body.value.members| == (if o2.sshKeys == [] then 1 else 2);
        if o.sshKeys != [] {
          assert e.body.value.members[1].1 == JArray(StringsJson(o.sshKeys));
          assert EndpointOf(b).body.value.members[1].1 == JArray(StringsJson(o2.sshKeys));
          StringsJsonInjective(o.sshKeys, o2.sshKeys);
        }
      }
    case DisableRescue(x) =>
      if b.DisableRescue? { PathSuffixCancels(x, b.id, "/rescue"); }
  }

  /** The request `sent` is the one the table gives for `c`. */
  ghost predicate Addresses(sent: Option<HttpRequest>, c: Call) {
    var e := EndpointOf(c);
    sent.Some? ==>
      sent.value.verb == e.verb && sent.value.url == BaseURL + e.path && sent.value.body == e.body
  }

  // ---------------------------------------------------------------------
  // The operations. Each issues one request; `reply` is what the transport
  // and the decoder make of it.

  method GetServer(c: Client, id: string, reply: Exchange<ServerEnvelope>)
    returns (r: Result<Server, Error>, sent: Option<HttpRequest>)
    ensures Addresses(sent, Get(id)) && (sent.None? <==> reply.Rejected?)
    ensures r.Failure? <==> ErrorOf(reply, true).Some?
    ensures r.Failure? ==> r.error == ErrorOf(reply, true).value
    ensures r.Success? ==> reply.Response? && reply.asResult == Success(ServerEnvelope(r.value))
  {
    var path := ServerPath(id);
    var err, response;
    err, response, sent := Request(c, MethodGet, path, None, true, reply);
    if err.Some? {
      return Failure(err.value), sent;
    }
    r := Success(response.value.server);
  }

  method ListServers(c: Client, reply: Exchange<ServerListEnvelope>)
    returns (r: Result<seq<Server>, Error>, sent: Option<HttpRequest>)
    ensures Addresses(sent, List) && (sent.None? <==> reply.Rejected?)
    ensures r.Failure? <==> ErrorOf(reply, true).Some?
    ensures r.Failure? ==> r.error == ErrorOf(reply, true).value
    ensures r.Success? ==> reply.Response? && reply.asResult == Success(ServerListEnvelope(r.value))
  {
    var err, response;
    err, response, sent := Request(c, MethodGet, "/server", None, true, reply);
    if err.Some? {
      return Failure(err.value), sent;
    }
    r := Success(response.value.servers);
  }

  method UpdateServer(c: Client, id: string, name: string, reply: Exchange<ServerEnvelope>)
    returns (r: Result<Server, Error>, sent: Option<HttpRequest>)
    ensures Addresses(sent, Update(id, name)) && (sent.None? <==> reply.Rejected?)
    ensures r.Failure? <==> ErrorOf(reply, true).Some?
    ensures r.Failure? ==> r.error == ErrorOf(reply, true).value
    ensures r.Success? ==> reply.Response? && reply.asResult == Success(ServerEnvelope(r.value))
  {
    var path := ServerPath(id);
    var body := NameBody(name);
    var err, response;
    err, response, sent := Request(c, MethodPost, path, Some(body), true, reply);
    if err.Some? {
      return Failure(err.value), sent;
    }
    r := Success(response.value.server);
  }

  method ResetServer(c: Client, id: string, options: ServerResetOptions, reply: Exchange<()>)
    returns (err: Option<Error>, sent: Option<HttpRequest>)
    ensures Addresses(sent, Reset(id, options)) && (sent.None? <==> reply.Rejected?)
    ensures err == ErrorOf(reply, false)
  {
    var path := ServerPath(id) + "/reset";
    var ignored: Option<()>;
    err, ignored, sent := Request(c, MethodPost, path, Some(ResetBody(options)), false, reply);
  }

  method EnableRescueMode(c: Client, id: string, options: ServerRescueOptions, reply: Exchange<()>)
    returns (err: Option<Error>, sent: Option<HttpRequest>)
    ensures Addresses(sent, EnableRescue(id, options)) && (sent.None? <==> reply.Rejected?)
    ensures err == ErrorOf(reply, false)
  {
    var path := ServerPath(id) + "/rescue";
    var ignored: Option<()>;
    err, ignored, sent := Request(c, MethodPost, path, Some(RescueBody(options)), false, reply);
  }

  method DisableRescueMode(c: Client, id: string, reply: Exchange<()>)
    returns (err: Option<Error>, sent: Option<HttpRequest>)
    ensures Addresses(sent, DisableRescue(id)) && (sent.None? <==> reply.Rejected?)
    ensures err == ErrorOf(reply, false)
  {
    var path := ServerPath(id) + "/rescue";
    var ignored: Option<()>;
    err, ignored, sent := Request(c, MethodDelete, path, None, false, reply);
  }
}

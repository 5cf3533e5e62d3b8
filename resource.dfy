/**
 * The `hetzner-robot_server` resource (internal/provider/server_resource.go):
 * how Create, Read, Update, Delete and ImportState turn a planned or prior
 * record into a sequence of API calls and a reported record.
 *
 * Each handler runs against the `FakeRobot.Robot` stand-in. Its contract says
 * which calls it issues (a prefix of a script computed from the inputs, cut
 * after the first call that fails), what that does to the stored records, and
 * what it reports. The scripts and reports are functions, and the lemmas
 * below state what the source promises about them.
 */
module Provider {
  import opened Wrappers
  import opened HttpClient
  import opened ServerApi
  import opened FakeRobot

  /** The resource's attributes; a null framework value is `None`. */
  datatype ServerResourceModel = ServerResourceModel(
    id: Option<string>,
    name: Option<string>,
    serverIP: Option<string>,
    serverIPv6: Option<string>,
    product: Option<string>,
    datacenter: Option<string>,
    status: Option<string>,
    rescueOS: Option<string>,
    rescue: Option<bool>)

  /** `ValueString()`: the empty string for null. */
  function ValueString(v: Option<string>): string {
    if v.Some? then v.value else ""
  }

  /** `!v.IsNull() && v.ValueBool()`. */
  predicate IsTrue(v: Option<bool>) {
    v.Some? && v.value
  }

  /** An error diagnostic: summary and detail. */
  datatype Diagnostic = Diagnostic(summary: string, detail: string)

  /** The calls a handler may issue. */
  predicate Issuable(c: Call) {
    c.Get? || c.Update? || c.EnableRescue? || c.DisableRescue?
  }

  /** The operation a failed call is named by; the four names differ
      already in their first letter. */
  function Action(c: Call): (a: string)
    requires Issuable(c)
    ensures |a| > 0
    ensures a[0] == 'r' <==> c.Get?
    ensures a[0] == 'u' <==> c.Update?
    ensures a[0] == 'e' <==> c.EnableRescue?
    ensures a[0] == 'd' <==> c.DisableRescue?
  {
    match c
    case Get(_) => "read server"
    case Update(_, _) => "update server name"
    case EnableRescue(_, _) => "enable rescue mode"
    case DisableRescue(_) => "disable rescue mode"
  }

  const UnablePrefix: string := "Unable to "

  /** The diagnostic for a failed call: a client error whose detail names
      the operation and ends with the error's text. */
  function ClientError(c: Call, e: Error): (d: Diagnostic)
    requires Issuable(c)
    ensures d.summary == "Client Error"
    ensures |d.detail| > |UnablePrefix| + |Text(e)|
    ensures d.detail[..|UnablePrefix|] == UnablePrefix
    ensures d.detail[|UnablePrefix|] == Action(c)[0]
    ensures d.detail[|d.detail| - |Text(e)|..] == Text(e)
  {
    Diagnostic("Client Error", UnablePrefix + Action(c) + ": " + Text(e))
  }

  /** A client error tells which kind of call failed, and with which error
      text. */
  lemma ClientErrorIdentifies(c1: Call, e1: Error, c2: Call, e2: Error)
    requires Issuable(c1) && Issuable(c2)
    requires ClientError(c1, e1) == ClientError(c2, e2)
    ensures KindOf(c1) == KindOf(c2)
    ensures Text(e1) == Text(e2)
  {
    var d := ClientError(c1, e1).detail;
    assert Action(c1)[0] == d[|UnablePrefix|] == Action(c2)[0];
    assert Action(c1) == Action(c2);
    var k := |UnablePrefix + Action(c1) + ": "|;
    assert d == UnablePrefix + Action(c1) + ": " + Text(e1);
    assert d == UnablePrefix + Action(c2) + ": " + Text(e2);
    assert Text(e1) == d[k..] == Text(e2);
  }

  /** The configuration error of enabling rescue mode without an OS. */
  const MissingRescueOS: Diagnostic :=
    Diagnostic("Missing Parameter", "rescue_os must be specified when enabling rescue mode")

  /** The record stored under `id`, if any. */
  function Lookup(servers: map<string, Server>, id: string): (r: Option<Server>)
    ensures r.Some? <==> id in servers
    ensures r.Some? ==> r.value == servers[id]
  {
    if id in servers then Some(servers[id]) else None
  }

  /** The diagnostics a handler ends with: one client error naming the call
      that failed, else the configuration error `stop` if any, else none. */
  function Diagnostics(fin: Finish, stop: Option<Diagnostic>): (d: seq<Diagnostic>)
    requires fin.halt.Some? ==> Issuable(fin.halt.value.call)
    ensures |d| <= 1
    ensures d == [] <==> fin.halt.None? && stop.None?
  {
    if fin.halt.Some? then [ClientError(fin.halt.value.call, fin.halt.value.error)]
    else if stop.Some? then [stop.value]
    else []
  }

  // ---------------------------------------------------------------------
  // Counting calls of one kind.

  datatype CallKind = GetKind | ListKind | UpdateKind | ResetKind | EnableKind | DisableKind

  function KindOf(c: Call): CallKind {
    match c
    case Get(_) => GetKind
    case List => ListKind
    case Update(_, _) => UpdateKind
    case Reset(_, _) => ResetKind
    case EnableRescue(_, _) => EnableKind
    case DisableRescue(_) => DisableKind
  }

  function Count(cs: seq<Call>, k: CallKind): nat {
    if cs == [] then 0 else (if KindOf(cs[0]) == k then 1 else 0) + Count(cs[1..], k)
  }

  lemma {:induction false} CountConcat(a: seq<Call>, b: seq<Call>, k: CallKind)
    ensures Count(a + b, k) == Count(a, k) + Count(b, k)
  {
    if a != [] {
      assert (a + b)[1..] == a[1..] + b;
      CountConcat(a[1..], b, k);
    } else {
      assert a + b == b;
    }
  }

  // ---------------------------------------------------------------------
  // Reading a server into the record (Create and Read).

  /** `data` with every attribute taken from `server`; rescue is on exactly
      when the server reports a rescue OS, and the OS is overwritten only then. */
  function Observed(data: ServerResourceModel, server: Server): (r: ServerResourceModel)
    ensures r.id == Some(server.id) && r.name == Some(server.name)
    ensures r.serverIP == Some(server.serverIP) && r.serverIPv6 == Some(server.serverIPv6)
    ensures r.product == Some(server.product) && r.datacenter == Some(server.datacenter)
    ensures r.status == Some(server.status)
    ensures r.rescue.Some? && (r.rescue.value <==> server.rescueOS != "")
    ensures server.rescueOS != "" ==> r.rescueOS == Some(server.rescueOS)
    ensures server.rescueOS == "" ==> r.rescueOS == data.rescueOS
  {
    var d := data.(id := Some(server.id), name := Some(server.name),
                   serverIP := Some(server.serverIP), serverIPv6 := Some(server.serverIPv6),
                   product := Some(server.product), datacenter := Some(server.datacenter),
                   status := Some(server.status));
    if server.rescueOS != "" then d.(rescueOS := Some(server.rescueOS), rescue := Some(true))
    else d.(rescue := Some(false))
  }

  // ---------------------------------------------------------------------
  // Create.

  /** Create asks for rescue mode only when `rescue` is true and an OS is given. */
  predicate WantsRescueOnCreate(plan: ServerResourceModel) {
    IsTrue(plan.rescue) && plan.rescueOS.Some?
  }

  /** The rename Create issues when the planned name differs from the
      fetched one. */
  function CreateRename(plan: ServerResourceModel, current: Server): seq<Call> {
    if ValueString(plan.name) != current.name then [Update(ValueString(plan.id), ValueString(plan.name))] else []
  }

  function CreateEnable(plan: ServerResourceModel): seq<Call> {
    if WantsRescueOnCreate(plan)
    then [EnableRescue(ValueString(plan.id), ServerRescueOptions(ValueString(plan.rescueOS), []))]
    else []
  }

  /** The calls Create makes when none fails, given the server its first
      fetch returns (`None`: the fetch fails, so nothing follows it). */
  function CreateScript(plan: ServerResourceModel, current: Option<Server>): (s: seq<Call>)
    ensures |s| >= 1 && s[0] == Get(ValueString(plan.id))
    ensures forall c | c in s :: Issuable(c) && c.id == ValueString(plan.id)
  {
    [Get(ValueString(plan.id))] +
    (if current.Some? then CreateRename(plan, current.value) + CreateEnable(plan) else [])
  }

  /** The server object Create reports from: the fetched one, or, when a
      rename was made, the one the rename returned, which carries the name
      `renamedTo` the service answered with. Only the name can differ. */
  function CreateReported(plan: ServerResourceModel, current: Server, renamedTo: string): (r: Server)
    ensures r.name == if ValueString(plan.name) != current.name then renamedTo else current.name
    ensures r.(name := current.name) == current
  {
    if ValueString(plan.name) != current.name then current.(name := renamedTo) else current
  }

  // ---------------------------------------------------------------------
  // Update.

  /** What Update does about rescue mode. */
  datatype Transition = Keep | Enable(os: string) | Disable | Reenable(os: string) | MissingOS

  /** Rescue intent is taken from the plan and the prior state alone. */
  function RescueTransition(plan: ServerResourceModel, prior: ServerResourceModel): (t: Transition)
    ensures t == MissingOS <==> IsTrue(plan.rescue) && !IsTrue(prior.rescue) && plan.rescueOS.None?
    ensures t.Enable? <==> IsTrue(plan.rescue) && !IsTrue(prior.rescue) && plan.rescueOS.Some?
    ensures t == Disable <==> !IsTrue(plan.rescue) && IsTrue(prior.rescue)
    ensures t.Reenable? <==> IsTrue(plan.rescue) && IsTrue(prior.rescue) && plan.rescueOS != prior.rescueOS
    ensures t == Keep <==>
      (IsTrue(plan.rescue) == IsTrue(prior.rescue) &&
       !(IsTrue(plan.rescue) && plan.rescueOS != prior.rescueOS))
    ensures t.Enable? || t.Reenable? ==> t.os == ValueString(plan.rescueOS)
  {
    var requested := IsTrue(plan.rescue);
    var current := IsTrue(prior.rescue);
    if requested != current then
      if requested then
        if plan.rescueOS.None? then MissingOS else Enable(plan.rescueOS.value)
      else Disable
    else if requested && plan.rescueOS != prior.rescueOS then Reenable(ValueString(plan.rescueOS))
    else Keep
  }

  function TransitionCalls(id: string, t: Transition): (s: seq<Call>)
    ensures forall c | c in s :: Issuable(c) && c.id == id
  {
    match t
    case Keep => []
    case MissingOS => []
    case Enable(os) => [EnableRescue(id, ServerRescueOptions(os, []))]
    case Disable => [DisableRescue(id)]
    case Reenable(os) => [DisableRescue(id), EnableRescue(id, ServerRescueOptions(os, []))]
  }

  /** The rename Update issues when the name attribute changed, null included. */
  function UpdateRename(plan: ServerResourceModel, prior: ServerResourceModel): seq<Call> {
    if plan.name != prior.name then [Update(ValueString(plan.id), ValueString(plan.name))] else []
  }

  /** The calls Update makes when none fails: the rename if the name changed,
      the rescue calls, then the final fetch (skipped on a configuration error). */
  function UpdateScript(plan: ServerResourceModel, prior: ServerResourceModel): (s: seq<Call>)
    ensures forall c | c in s :: Issuable(c) && c.id == ValueString(plan.id)
  {
    var id := ValueString(plan.id);
    var t := RescueTransition(plan, prior);
    UpdateRename(plan, prior) +
    TransitionCalls(id, t) +
    (if t == MissingOS then [] else [Get(id)])
  }

  /** The plan with the name the rename returned, when the name changed. */
  function Renamed(plan: ServerResourceModel, prior: ServerResourceModel, renamedTo: string): ServerResourceModel {
    if plan.name != prior.name then plan.(name := Some(renamedTo)) else plan
  }

  /** The rescue attributes after a transition that went through. */
  function Rescued(data: ServerResourceModel, t: Transition): ServerResourceModel {
    match t
    case Enable(_) => data.(rescue := Some(true))
    case Reenable(_) => data.(rescue := Some(true))
    case Disable => data.(rescue := Some(false), rescueOS := None)
    case _ => data
  }

  /** The read-only attributes taken from the final fetch. */
  function Refreshed(data: ServerResourceModel, final: Server): ServerResourceModel {
    data.(serverIP := Some(final.serverIP), serverIPv6 := Some(final.serverIPv6),
          product := Some(final.product), datacenter := Some(final.datacenter),
          status := Some(final.status))
  }

  /** The configuration error Update stops with after the rename. */
  function UpdateStop(plan: ServerResourceModel, prior: ServerResourceModel): (d: Option<Diagnostic>)
    ensures d.Some? <==> RescueTransition(plan, prior) == MissingOS
    ensures d.Some? ==> d.value.summary == "Missing Parameter"
    ensures d.Some? ==> d.value.detail == "rescue_os must be specified when enabling rescue mode"
  {
    if RescueTransition(plan, prior) == MissingOS then Some(MissingRescueOS) else None
  }

  /** The record Update reports: the plan, with the name the rename returned,
      the rescue attributes the transition sets, and the read-only attributes
      of the final fetch. */
  function UpdateReport(plan: ServerResourceModel, prior: ServerResourceModel,
                        renamedTo: string, final: Server): (r: ServerResourceModel)
    ensures r.id == plan.id
    ensures r.name == if plan.name != prior.name then Some(renamedTo) else plan.name
    ensures var t := RescueTransition(plan, prior);
      && (t.Enable? || t.Reenable? || t.Disable? ==> r.rescue == Some(IsTrue(plan.rescue)))
      && (!(t.Enable? || t.Reenable? || t.Disable?) ==> r.rescue == plan.rescue)
      && r.rescueOS == (if t.Disable? then None else plan.rescueOS)
    ensures r.serverIP == Some(final.serverIP) && r.serverIPv6 == Some(final.serverIPv6)
    ensures r.product == Some(final.product) && r.datacenter == Some(final.datacenter)
    ensures r.status == Some(final.status)
  {
    Refreshed(Rescued(Renamed(plan, prior, renamedTo), RescueTransition(plan, prior)), final)
  }

  // ---------------------------------------------------------------------
  // ImportState.

  /** Import sets the id attribute and nothing else. */
  function ImportState(id: string): (r: ServerResourceModel)
    ensures r.id == Some(id)
    ensures r.(id := None) == ServerResourceModel(None, None, None, None, None, None, None, None, None)
  {
    ServerResourceModel(Some(id), None, None, None, None, None, None, None, None)
  }

  // ---------------------------------------------------------------------
  // The handlers.

  /** A call that fails ends the run: the rest of the script is never made. */
  lemma Failed(b: Behaviour, st0: State, done: seq<Call>, c: Call, rest: seq<Call>)
    requires Execute(b, st0, done).halt.None?
    requires Refusal(b, Execute(b, st0, done).state, c).Some?
    ensures Execute(b, st0, done + [c] + rest) == Step(b, Execute(b, st0, done).state, c)
  {
    ExecuteSnoc(b, st0, done, c);
    ExecuteStops(b, st0, done + [c], rest);
  }

  /** A call that succeeds extends the run by one step. */
  lemma Succeeded(b: Behaviour, st0: State, done: seq<Call>, c: Call)
    requires Execute(b, st0, done).halt.None?
    requires Refusal(b, Execute(b, st0, done).state, c).None?
    ensures Execute(b, st0, done + [c]) == Finish(Perform(b, Execute(b, st0, done).state, c), None)
  {
    ExecuteSnoc(b, st0, done, c);
  }

  /** Fills the record from a fetched server, attribute by attribute, as
      Create and Read do. */
  method Overwrite(data: ServerResourceModel, server: Server) returns (r: ServerResourceModel)
    ensures r == Observed(data, server)
  {
    r := data;
    r := r.(id := Some(server.id));
    r := r.(name := Some(server.name));
    r := r.(serverIP := Some(server.serverIP));
    r := r.(serverIPv6 := Some(server.serverIPv6));
    r := r.(product := Some(server.product));
    r := r.(datacenter := Some(server.datacenter));
    r := r.(status := Some(server.status));
    if server.rescueOS != "" {
      r := r.(rescueOS := Some(server.rescueOS));
      r := r.(rescue := Some(true));
    } else {
      r := r.(rescue := Some(false));
    }
  }

  class ServerResource {
    const api: Robot

    constructor (api: Robot)
      ensures this.api == api
    {
      this.api := api;
    }

    /**
     * Adopts an existing server: fetches it, renames it if the planned name
     * differs, enables rescue mode if asked to, and reports the record from
     * the server object it holds at that point.
     */
    method Create(plan: ServerResourceModel) returns (saved: Option<ServerResourceModel>, diags: seq<Diagnostic>)
      requires api.Valid()
      modifies api
      ensures api.Valid()
      ensures
        var current := Lookup(old(api.servers), ValueString(plan.id));
        var fin := Execute(api.behaviour, old(api.Now()), CreateScript(plan, current));
        && api.Now() == fin.state
        && diags == Diagnostics(fin, None)
        && (saved.Some? <==> fin.halt.None?)
      ensures saved.Some? ==>
        var renamedTo := NameAfter(api.behaviour, |old(api.log)| + 1, ValueString(plan.name));
        && ValueString(plan.id) in old(api.servers)
        && saved.value == Observed(plan, CreateReported(plan, old(api.servers)[ValueString(plan.id)], renamedTo))
      ensures saved.Some? ==> saved.value.id == Some(ValueString(plan.id))
    {
      var id := ValueString(plan.id);
      ghost var st0 := api.Now();
      ghost var script := CreateScript(plan, Lookup(api.servers, id));
      assert Execute(api.behaviour, st0, []) == Finish(api.Now(), None);

      var r := api.GetServer(id);
      if r.Failure? {
        assert script == [] + [Get(id)] + script[1..];
        Failed(api.behaviour, st0, [], Get(id), script[1..]);
        saved, diags := None, [ClientError(Get(id), r.error)];
        return;
      }
      Succeeded(api.behaviour, st0, [], Get(id));
      assert [] + [Get(id)] == [Get(id)];
      ghost var st1 := api.Now();
      assert st1 == Execute(api.behaviour, st0, [Get(id)]).state;
      var server := r.value;
      assert server == st0.servers[id];
      ghost var rest := CreateRename(plan, server) + CreateEnable(plan);
      assert script == [Get(id)] + rest;

      server, diags := ApplyCreatePlan(plan, server);
      ExecuteConcat(api.behaviour, st0, [Get(id)], rest);
      if diags != [] {
        saved := None;
        return;
      }
      var data := Overwrite(plan, server);
      saved := Some(data);
    }

    /**
     * The part of Create after the fetch of `current`: renames the server if
     * the planned name differs, then enables rescue mode if asked to. The
     * server object it hands back is the one Create reports from.
     */
    method ApplyCreatePlan(plan: ServerResourceModel, current: Server) returns (server: Server, diags: seq<Diagnostic>)
      requires api.Valid()
      requires ValueString(plan.id) in api.servers && api.servers[ValueString(plan.id)] == current
      modifies api
      ensures api.Valid()
      ensures
        var fin := Execute(api.behaviour, old(api.Now()), CreateRename(plan, current) + CreateEnable(plan));
        && api.Now() == fin.state
        && diags == Diagnostics(fin, None)
      ensures diags == [] ==>
        server == CreateReported(plan, current, NameAfter(api.behaviour, |old(api.log)|, ValueString(plan.name)))
    {
      var id := ValueString(plan.id);
      ghost var st0 := api.Now();
      ghost var script := CreateRename(plan, current) + CreateEnable(plan);
      ghost var done: seq<Call> := [];
      assert Execute(api.behaviour, st0, done) == Finish(api.Now(), None);
      server, diags := current, [];

      if ValueString(plan.name) != server.name {
        var call := Call.Update(id, ValueString(plan.name));
        var r := api.UpdateServer(id, ValueString(plan.name));
        assert script == done + [call] + CreateEnable(plan);
        if r.Failure? {
          Failed(api.behaviour, st0, done, call, CreateEnable(plan));
          diags := [ClientError(call, r.error)];
          return;
        }
        Succeeded(api.behaviour, st0, done, call);
        done := done + [call];
        assert Execute(api.behaviour, st0, done) == Finish(api.Now(), None);
        server := r.value;
      }
      assert script == done + CreateEnable(plan);

      if !plan.rescue.None? && plan.rescue.value && !plan.rescueOS.None? {
        var options := ServerRescueOptions(ValueString(plan.rescueOS), []);
        var call := EnableRescue(id, options);
        var err := api.EnableRescueMode(id, options);
        assert script == done + [call] + [];
        if err.Some? {
          Failed(api.behaviour, st0, done, call, []);
          diags := [ClientError(call, err.value)];
          return;
        }
        Succeeded(api.behaviour, st0, done, call);
        done := done + [call];
        assert Execute(api.behaviour, st0, done) == Finish(api.Now(), None);
      }
      assert script == done;
    }

    /** Refreshes the prior record from the server it names. */
    method Read(prior: ServerResourceModel) returns (saved: Option<ServerResourceModel>, diags: seq<Diagnostic>)
      requires api.Valid()
      modifies api
      ensures api.Valid()
      ensures
        var current := Lookup(old(api.servers), ValueString(prior.id));
        var fin := Execute(api.behaviour, old(api.Now()), [Get(ValueString(prior.id))]);
        && api.Now() == fin.state
        && diags == Diagnostics(fin, None)
        && (saved.Some? <==> fin.halt.None?)
        && (saved.Some? ==> current.Some? && saved.value == Observed(prior, current.value))
      ensures saved.Some? ==> saved.value.id == Some(ValueString(prior.id))
    {
      var id := ValueString(prior.id);
      ghost var st0 := api.Now();
      assert Execute(api.behaviour, st0, []) == Finish(api.Now(), None);
      var r := api.GetServer(id);
      if r.Failure? {
        Failed(api.behaviour, st0, [], Get(id), []);
        assert [] + [Get(id)] + [] == [Get(id)];
        saved, diags := None, [ClientError(Get(id), r.error)];
        return;
      }
      Succeeded(api.behaviour, st0, [], Get(id));
      assert [] + [Get(id)] == [Get(id)];
      var data := Overwrite(prior, r.value);
      saved, diags := Some(data), [];
    }

    /**
     * Applies a plan to a server whose prior record is `prior`: renames it if
     * the name attribute changed, moves rescue mode as `RescueTransition`
     * says, then refetches it for the read-only attributes.
     */
    method Update(plan: ServerResourceModel, prior: ServerResourceModel)
      returns (saved: Option<ServerResourceModel>, diags: seq<Diagnostic>)
      requires api.Valid()
      modifies api
      ensures api.Valid()
      ensures api.Now() == Execute(api.behaviour, old(api.Now()), UpdateScript(plan, prior)).state
      ensures diags == Diagnostics(Execute(api.behaviour, old(api.Now()), UpdateScript(plan, prior)), UpdateStop(plan, prior))
      ensures saved.Some? <==> diags == []
      ensures saved.Some? ==>
        && ValueString(plan.id) in api.servers
        && saved.value == UpdateReport(plan, prior, NameAfter(api.behaviour, |old(api.log)|, ValueString(plan.name)),
                                       api.servers[ValueString(plan.id)])
    {
      var id := ValueString(plan.id);
      ghost var st0 := api.Now();
      ghost var t := RescueTransition(plan, prior);
      ghost var rename := UpdateRename(plan, prior);
      ghost var tail: seq<Call> := if t == MissingOS then [] else [Get(id)];
      ghost var script := UpdateScript(plan, prior);
      assert script == rename + TransitionCalls(id, t) + tail;
      assert Execute(api.behaviour, st0, []) == Finish(api.Now(), None);
      var data := plan;

      if plan.name != prior.name {
        var call := Call.Update(id, ValueString(plan.name));
        var r := api.UpdateServer(id, ValueString(plan.name));
        if r.Failure? {
          Failed(api.behaviour, st0, [], call, TransitionCalls(id, t) + tail);
          assert script == [] + [call] + (TransitionCalls(id, t) + tail);
          saved, diags := None, [ClientError(call, r.error)];
          return;
        }
        Succeeded(api.behaviour, st0, [], call);
        assert rename == [] + [call];
        data := data.(name := Some(r.value.name));
      }
      assert Execute(api.behaviour, st0, rename) == Finish(api.Now(), None);
      assert data == Renamed(plan, prior, NameAfter(api.behaviour, |st0.log|, ValueString(plan.name)));

      data, diags := ChangeRescue(plan, prior, data);
      ExecuteConcat(api.behaviour, st0, rename, TransitionCalls(id, t));
      ghost var done := rename + TransitionCalls(id, t);
      if diags != [] {
        ExecuteConcat(api.behaviour, st0, done, tail);
        saved := None;
        return;
      }
      assert Execute(api.behaviour, st0, done) == Finish(api.Now(), None);

      var r := api.GetServer(id);
      if r.Failure? {
        Failed(api.behaviour, st0, done, Get(id), []);
        assert script == done + [Get(id)] + [];
        saved, diags := None, [ClientError(Get(id), r.error)];
        return;
      }
      Succeeded(api.behaviour, st0, done, Get(id));
      assert script == done + [Get(id)];
      var server := r.value;
      data := data.(serverIP := Some(server.serverIP), serverIPv6 := Some(server.serverIPv6),
                    product := Some(server.product), datacenter := Some(server.datacenter),
                    status := Some(server.status));
      saved, diags := Some(data), [];
    }

    /**
     * The rescue-mode part of Update: enables, disables, or disables and
     * re-enables rescue mode as the plan and the prior record differ, and
     * records the outcome in `data`.
     */
    method ChangeRescue(plan: ServerResourceModel, prior: ServerResourceModel, data: ServerResourceModel)
      returns (next: ServerResourceModel, diags: seq<Diagnostic>)
      requires api.Valid()
      modifies api
      ensures api.Valid()
      ensures
        var fin := Execute(api.behaviour, old(api.Now()), TransitionCalls(ValueString(plan.id), RescueTransition(plan, prior)));
        && api.Now() == fin.state
        && diags == Diagnostics(fin, UpdateStop(plan, prior))
      ensures diags == [] ==> next == Rescued(data, RescueTransition(plan, prior))
    {
      var id := ValueString(plan.id);
      ghost var st0 := api.Now();
      ghost var t := RescueTransition(plan, prior);
      assert Execute(api.behaviour, st0, []) == Finish(api.Now(), None);
      next, diags := data, [];

      var requested := !plan.rescue.None? && plan.rescue.value;
      var current := !prior.rescue.None? && prior.rescue.value;
      if requested != current {
        if requested {
          if plan.rescueOS.None? {
            assert t == MissingOS;
            diags := [MissingRescueOS];
            return;
          }
          var options := ServerRescueOptions(ValueString(plan.rescueOS), []);
          var call := EnableRescue(id, options);
          assert t == Enable(options.os) && TransitionCalls(id, t) == [] + [call] + [];
          var err := api.EnableRescueMode(id, options);
          if err.Some? {
            Failed(api.behaviour, st0, [], call, []);
            diags := [ClientError(call, err.value)];
            return;
          }
          Succeeded(api.behaviour, st0, [], call);
          next := next.(rescue := Some(true));
        } else {
          var call := DisableRescue(id);
          assert t == Disable && TransitionCalls(id, t) == [] + [call] + [];
          var err := api.DisableRescueMode(id);
          if err.Some? {
            Failed(api.behaviour, st0, [], call, []);
            diags := [ClientError(call, err.value)];
            return;
          }
          Succeeded(api.behaviour, st0, [], call);
          next := next.(rescue := Some(false), rescueOS := None);
        }
      } else if requested && plan.rescueOS != prior.rescueOS {
        var options := ServerRescueOptions(ValueString(plan.rescueOS), []);
        var call := DisableRescue(id);
        assert t == Reenable(options.os);
        assert TransitionCalls(id, t) == [] + [call] + [EnableRescue(id, options)];
        var err := api.DisableRescueMode(id);
        if err.Some? {
          Failed(api.behaviour, st0, [], call, [EnableRescue(id, options)]);
          diags := [ClientError(call, err.value)];
          return;
        }
        Succeeded(api.behaviour, st0, [], call);
        ghost var done := [call];
        assert Execute(api.behaviour, st0, done) == Finish(api.Now(), None);
        call := EnableRescue(id, options);
        assert TransitionCalls(id, t) == done + [call] + [];
        err := api.EnableRescueMode(id, options);
        if err.Some? {
          Failed(api.behaviour, st0, done, call, []);
          diags := [ClientError(call, err.value)];
          return;
        }
        Succeeded(api.behaviour, st0, done, call);
        next := next.(rescue := Some(true));
      } else {
        assert t == Keep;
      }
    }

    /** Dedicated servers cannot be deleted: the record is dropped from the
        state without any call. */
    method Delete(prior: ServerResourceModel) returns (diags: seq<Diagnostic>)
      ensures diags == []
    {
      diags := [];
    }
  }
}

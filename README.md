# Hetzner Robot server resource, modelled in Dafny

This project models the core of a Terraform provider for the Hetzner Robot
web service (dedicated servers). The model has three layers.

- **HTTP client** (`client.dfy`, module `HttpClient`).
  - `NewClient` builds a client.
  - `Request` builds a request:
    - the URL is the base URL followed by the path;
    - the JSON body is optional;
    - it sets Basic authentication and the `Content-Type` and `Accept` headers.
  - `Request` then classifies the reply as one of:
    - a rejected request;
    - a transport error;
    - an `HTTP error <status>[: <message>]`;
    - a decode error;
    - a success.
  - The transport and the JSON decoder are not modelled. For each call they are given as an `Exchange` value: rejected, transport failure, or a status with what the body decodes to.
  - `Text` renders an error as the text the handlers show. `HttpErrorTextRoundTrip` proves that this text determines the status and the message.
- **Server operations** (`server.dfy`, module `ServerApi`).
  - It holds the `Server` record, the option records and the JSON key of every field.
  - `EndpointOf` is the table from each call (get, list, rename, reset, enable rescue, disable rescue) to its HTTP method, path, body, and whether a result is decoded.
  - Six methods issue one request each through `Request`.
- **Server resource** (`resource.dfy`, module `Provider`; facts in `resource_facts.dfy`, module `ProviderFacts`).
  - It covers the Create, Read, Update, Delete and ImportState handlers.
  - The handlers run against `FakeRobot.Robot` (`robot.dfy`), a stand-in for the service. It keeps one record per id and a log of every call. The caller chooses, by log position, which calls fail (`Behaviour.failures`) and which renames store and answer with another name than the requested one (`Behaviour.renames`). A call on an unknown id fails with 404 "server not found".
  - Each handler is specified by a script: the pure list of calls it makes when none fails (`CreateScript`, `UpdateScript`, and `[Get(id)]` for Read).
  - `Execute` runs a script until its first failure. Each handler's contract states three things:
    - the fake's state afterwards is what `Execute` gives;
    - its diagnostics are those of the failing call, or the configuration error;
    - the record it reports.
  - The lemmas state what the handlers promise about those scripts and reports. They cover the quirks of the source:
    - Update compares against the prior state.
    - Create enables rescue without checking the server.
    - Create reports from the object fetched before the enable.
    - The OS-change branch has no null guard.

Framework strings and booleans are `Option` values; null is `None`, and
`ValueString` of null is `""`.

## Model

| member | source | states |
|---|---|---|
| HttpClient.NewClient | internal/client/client.go:24-32 | the client keeps username and password verbatim and has a 30-second timeout |
| HttpClient.ErrorOf | internal/client/client.go:46-75 | a rejected request and a transport error are returned as they are; an HTTP error exactly when the status is at least 400, carrying that status, with a message exactly when the error body decodes; a decode error exactly when the status is below 400, a result is wanted and it does not decode, carrying the decoder's own error; no error exactly when the status is below 400 and either no result is wanted or it decodes |
| HttpClient.Request | internal/client/client.go:35-76 | a request is sent unless it is rejected; it carries the method, the base URL followed by the path, the given body, the client's credentials as Basic authentication and JSON `Content-Type` and `Accept` headers; the error is `ErrorOf` of the reply; a result is returned exactly when there is no error and one is wanted, and it is the decoded body |
| HttpClient.NatToDecimal | internal/client/client.go:64-66 | the decimal rendering of a status is a non-empty string of digits with no leading zero (only zero itself starts with `0`) |
| HttpClient.DecimalRoundTrip | internal/client/client.go:64-66 | reading the decimal rendering back gives the number |
| HttpClient.HttpErrorTextRoundTrip | internal/client/client.go:61-67 | the text `HTTP error <status>` or `HTTP error <status>: <message>` parses back to that status and message (present or absent), for negative statuses too |
| HttpClient.Text | internal/client/client.go:61-67 | request, transport and decode errors show their reason unchanged; an HTTP error shows `HTTP error ` followed by more text, which `HttpErrorTextRoundTrip` pins down |
| ServerApi.JsonKeysDistinct | internal/client/server.go:9-23 | no two fields of the server record are read from the same JSON key (`dc` is the datacenter, `rescue` the rescue OS) |
| ServerApi.EndpointOf | internal/client/server.go:36-100 | GET exactly for get and list; POST exactly for rename, reset and enable; DELETE exactly for disable; a result is decoded exactly for get, list and rename; no body exactly for get, list and disable; paths `/server`, `/server/<id>`, `/server/<id>/reset`, `/server/<id>/rescue` (shared by enable and disable); the body of a rename is `NameBody` of the name, of a reset `ResetBody` of the options, and of an enable `RescueBody` of the options |
| ServerApi.StringsJsonInjective | internal/client/server.go:31-34 | different SSH key lists give different JSON arrays |
| ServerApi.EndpointInjective | internal/client/server.go:36-100 | two calls that produce the same method, path and body are the same call with the same arguments |
| ServerApi.NameBody | internal/client/server.go:68-70 | the rename body holds the name under the key `name` and no other key |
| ServerApi.ResetBody | internal/client/server.go:25-27 | the reset body holds the reset type under the key `type` and no other key |
| ServerApi.RescueBody | internal/client/server.go:30-33 | the rescue body holds the OS under `os`, and the SSH keys as an array under `ssh_keys` exactly when there are any; no other key |
| ServerApi.GetServer | internal/client/server.go:37-49 | GET `/server/<id>`; fails exactly when the request fails, with its error unchanged; otherwise returns the decoded server |
| ServerApi.ListServers | internal/client/server.go:52-63 | GET `/server`; fails exactly when the request fails, with its error unchanged; otherwise returns the decoded list |
| ServerApi.UpdateServer | internal/client/server.go:66-82 | POST `/server/<id>` with body `{"name": name}`; fails exactly when the request fails, with its error unchanged; otherwise returns the decoded server |
| ServerApi.ResetServer | internal/client/server.go:85-88 | POST `/server/<id>/reset` with the options as body; no result decoded; the error is the request's |
| ServerApi.EnableRescueMode | internal/client/server.go:91-94 | POST `/server/<id>/rescue` with the options as body; no result decoded; the error is the request's |
| ServerApi.DisableRescueMode | internal/client/server.go:97-100 | DELETE `/server/<id>/rescue` with no body; no result decoded; the error is the request's |
| Provider.Observed | internal/provider/server_resource.go:158-171 | the id, name and read-only attributes come from the server; `rescue` is true exactly when the server's rescue OS is non-empty; `rescue_os` is overwritten only then and otherwise keeps its earlier value |
| Provider.Overwrite | internal/provider/server_resource.go:197-209 | filling the record attribute by attribute gives `Observed` |
| Provider.Action | internal/provider/server_resource.go:237-303 | each failing call is named by its own operation (read server, update server name, enable or disable rescue mode), and the four names differ |
| Provider.ClientError | internal/provider/server_resource.go:237-303 | a failed call gives a "Client Error" whose detail starts with `Unable to `, then the operation's name, and ends with the error's text |
| Provider.ClientErrorIdentifies | internal/provider/server_resource.go:237-303 | two equal client errors come from the same kind of call and carry the same error text |
| Provider.CreateScript | internal/provider/server_resource.go:131-155 | Create's first call is the fetch of the planned id, and every call it makes addresses the planned id |
| Provider.CreateReported | internal/provider/server_resource.go:137-164 | Create reports from the server the rename answered with when it renamed, so the reported name is that answer, and otherwise from the fetched server; the rest is the fetched server's |
| Provider.RescueTransition | internal/provider/server_resource.go:246-298 | Update's rescue decision depends only on the plan and the prior state: missing OS exactly when rescue is requested, currently off and no OS is planned; enable exactly when requested, off and an OS is planned; disable exactly when not requested but on; re-enable exactly when requested, on and the OS attribute changed; nothing otherwise; enable and re-enable carry the planned OS |
| Provider.UpdateStop | internal/provider/server_resource.go:249-258 | Update stops with the configuration error exactly in the missing-OS case; the error is "Missing Parameter" with the detail `rescue_os must be specified when enabling rescue mode` |
| Provider.UpdateScript | internal/provider/server_resource.go:233-305 | every call Update makes is one a handler issues and addresses the planned id; its order and counts are stated by `UpdateRenames`, `UpdateRescueCalls`, `UpdateReenableOrder` and `UpdateFetchesLast` |
| Provider.UpdateReport | internal/provider/server_resource.go:240-312 | the saved id and rescue OS are the plan's, except that a disable clears the OS; the name is the rename's answer when the name changed, else the plan's; after a rescue call `rescue` is what was requested, otherwise the plan's; only the read-only attributes come from the final fetch |
| Provider.ImportState | internal/provider/server_resource.go:333-336 | import sets the id attribute and leaves every other attribute null |
| Provider.ServerResource.Create | internal/provider/server_resource.go:119-177 | the calls made are Create's script run until the first failure; a failed call ends Create with one "Client Error" naming it and nothing saved; otherwise nothing is reported as an error and the saved record is `Observed` of the server Create holds: the rename's answer if it renamed, else the fetched server; the saved id is the planned id |
| Provider.ServerResource.ApplyCreatePlan | internal/provider/server_resource.go:137-155 | after the fetch, the rename and enable calls are made until the first failure, with that call's client error; when none fails, the server handed back is the rename's answer if it renamed, else the fetched one |
| Provider.ServerResource.Read | internal/provider/server_resource.go:179-213 | exactly one fetch is made; on failure one "Unable to read server" error and nothing saved; otherwise the saved record is `Observed` of the stored server, and its id is the prior id |
| Provider.ServerResource.Update | internal/provider/server_resource.go:215-316 | the calls made are Update's script run until the first failure; the diagnostics are the failing call's client error, else the missing-parameter error, else none; a record is saved exactly when there is no diagnostic, and it is `UpdateReport` of the plan with the rename's answer and the final fetch |
| Provider.ServerResource.ChangeRescue | internal/provider/server_resource.go:246-298 | the rescue calls made are those of the transition, run until the first failure; the diagnostics are the failing call's error, or the missing-parameter error; when there is none, the record carries the transition's rescue attributes |
| Provider.ServerResource.Delete | internal/provider/server_resource.go:318-331 | Delete makes no call on the service (it modifies nothing) and reports no diagnostic |
| ProviderFacts.CreateCalls | internal/provider/server_resource.go:131-155 | after a successful fetch, Create fetches exactly once and first, renames exactly when the planned name differs from the fetched one, enables rescue exactly once when `rescue` is true and `rescue_os` is set (else never), and never disables |
| ProviderFacts.CreateEnablesPlannedOS | internal/provider/server_resource.go:147-155 | any enable call of Create carries the planned OS and no SSH keys |
| ProviderFacts.CreateStopsAtFailedFetch | internal/provider/server_resource.go:131-135 | when the first fetch fails, it is the only call made and its error ends Create |
| ProviderFacts.CreateUnknownServer | internal/provider/server_resource.go:131-135 | an unknown id ends Create with "Unable to read server" carrying the not-found error |
| ProviderFacts.CreateReportName | internal/provider/server_resource.go:137-159 | after a Create in which no call fails, the saved name is the name the service holds for the server: the rename's answer, which need not be the planned name, or the fetched name when there was no rename |
| ProviderFacts.CreateReportIsStale | internal/provider/server_resource.go:147-171 | when Create enables rescue on a server not in rescue, the server ends in rescue with the planned OS while the saved record says rescue is off |
| ProviderFacts.ObservedIdempotent | internal/provider/server_resource.go:197-209 | reading the same server again leaves the saved record unchanged |
| ProviderFacts.UpdateRenames | internal/provider/server_resource.go:233-243 | Update renames exactly once when the name attribute differs from the prior state's (null included), else never; the rename is its first call |
| ProviderFacts.UpdateRescueCalls | internal/provider/server_resource.go:246-298 | Update enables once exactly when rescue is requested and either was off with an OS planned or was on with a changed OS; it disables once exactly when rescue was on and is either not requested or has a changed OS; every enable carries the planned OS |
| ProviderFacts.UpdateReenableOrder | internal/provider/server_resource.go:280-298 | on an OS change the disable call comes immediately before the enable call |
| ProviderFacts.UpdateReenableStopsAtDisable | internal/provider/server_resource.go:283-287 | when that disable fails, it is the last call made: no enable and no final fetch |
| ProviderFacts.UpdateMissingOS | internal/provider/server_resource.go:249-258 | with rescue requested, off and no OS, Update makes only the rename (which stays done), and ends with the missing-parameter error |
| ProviderFacts.UpdateFetchesLast | internal/provider/server_resource.go:300-305 | outside the missing-OS case, Update fetches exactly once, as its last call |
| ProviderFacts.UpdateReportName | internal/provider/server_resource.go:233-243 | after an Update in which the name changed and no call fails, the saved name is the name the service holds for the server, which is the rename's answer |
| ProviderFacts.UpdateConverges | internal/provider/server_resource.go:233-312 | planning the same record again against what a successful Update saved issues only the final fetch, unless the name changed and the service answered with another name than the planned one (a null planned name always counts as another), in which case it renames again first |
| ProviderFacts.UpdateReenablesWithEmptyOS | internal/provider/server_resource.go:280-291 | with rescue on both sides and the planned OS null while the prior one is set, Update disables and re-enables rescue with the empty OS |

## Left out

- The JSON encoding error of a request body is not modelled. Every body is a map or record of strings and always encodes.
- JSON decoding is not modelled. This includes Go's case-insensitive key matching and the `omitempty` tags on decoding. Each reply says whether the body decodes and to what.
- Basic authentication is kept as the credentials. Their base64 encoding by the HTTP library is not modelled.
- The HTTP transport is not modelled, and neither is the real effect of the 30-second timeout. A transport or timeout failure is an `Exchange` value.
- `Request` writes the decoded body through a result pointer. The model returns that body as a value.
- A decodable error body carries `code` and `message`. The error text uses only the message, and the model follows the code in dropping the code.
- The fake service (`FakeRobot.Robot`) is an assumption about the service, not part of the provider. Under this assumption:
  - a rename stores the name given for its log position in `Behaviour.renames`, else the requested one, and answers with the stored record;
  - enabling rescue stores the OS;
  - disabling rescue clears the OS;
  - a fetch returns the stored record.
- The fake does not offer list or reset: no handler calls them.
- The saved records do not keep "a non-empty rescue OS exactly when rescue is on". The source does not keep it either:
  - Create and Read keep an earlier `rescue_os` when the server reports none;
  - Create can save rescue off for a server it just put in rescue (`CreateReportIsStale`).
- Reading the plan and prior state from the framework is not modelled, and neither is saving the new state. The framework's unknown values and `tflog` tracing are also left out.
- `Schema`, `Metadata`, `Configure` and the provider (internal/provider/provider.go) are not part of this model.
- Provider.CreateReported: the service's answer to a rename is taken to differ from the fetched record only in its name, as the fake's answer does. A service that also changed other fields in that answer would have them reported by Create.

# faas-rancher bridge, modelled in Dafny

This project models the core of faas-rancher, a bridge that runs serverless
functions as services of the Rancher orchestrator. It covers two parts:

- the REST client that talks to Rancher's Cattle API (`rancher/client.go`);
- the HTTP handlers that deploy, list, scale and delete functions and proxy
  invocations (`handlers/*.go`).

For the client, the model states which URL each call requests and what it
sends. It also states how the first stack and the first service are chosen,
and how failures surface. For the handlers, it states which status, headers
and body each request gets, and which orchestrator calls are made in which
order.

Structure, one module per core source file, plus support modules:

- `Services` (`services.dfy`): the `Service` and `LaunchConfig` records and `IsActive`.
- `RancherClient` (`rancher_client.dfy`): `Config`, the `Client` class and `NewClientForConfig`.
  The HTTP transport is a `Transport` oracle. Its replies arrive already
  decoded, and it keeps a log of the requests sent. `log.Fatal` becomes the
  `Fatal` outcome.
- `Bridge` (`bridge.dfy`): the client interface the handlers use, with the
  five operations `CreateService`, `DeleteService`, `FindServiceByName`,
  `ListServices` and `UpdateService(spec, updates)`. It is an oracle whose
  answers are fixed functions of the call's arguments. It also keeps a log of
  the calls made (`calls`).
- `Http` (`http.dfy`): the inbound request, a `Header` map updated in place,
  and a `ResponseWriter`. As in net/http, the first status written wins, and a
  handler that writes nothing is answered 200.
- `Deploy`, `Reader`, `Replicas`, `Delete`, `Proxy`: one module per handler file.
- `Decimal` (`decimal.dfy`): `strconv.FormatInt(n, 10)`, plus a reference
  parser that serves as its inverse.
- `Wrappers` (`wrappers.dfy`): `Option` and `Result`.

JSON decoding of request bodies is a parameter of each handler: a function
from the body text to an `Option`. JSON encoding of responses is a function
parameter too. Path variables are a plain `map<string, string>`.

Where the code and its tests or comments disagree, the model follows the
code:

- **Reader.** The listing never consults a service's state
  (`handlers/reader.go:24`). A labelled service in state `activating` is
  listed (`Reader.ActivatingFunctionListed`).
- **Nil launch config.** The listing dereferences each service's launch
  config. A service without one (as in `handlers/reader_test.go:54-56`) makes
  the handler panic before it writes anything. This is the `Panicked` listing
  and the `panicked` result of `FunctionReader` and `ReplicaReader`.
- **Delete.** A lookup error of any kind is answered 404
  (`handlers/delete.go:37-39`), not 500.
- **Delete guard.** The comment at `handlers/delete.go:35` says the lookup
  keeps unlabelled services from being deleted. It does not: the lookup
  queries `<CattleURL>/services?name=<name>` (`rancher/client.go:64`), with
  neither the function stack nor the label in the query. A same-named service
  without the `faas_function` label, or one in another stack, is found and
  deleted (`Delete.DeleteHandler`, last clause).
- **New specs.** A new spec's `startOnCreate` stays false. Its scale is
  always 1.
- **Image round trip.** The deploy handler writes the launch config's `image`
  field, but the listing reads `imageUuid`. So a freshly deployed spec comes
  back with an empty image (`Reader.DeployedSpecListed`). No image round trip
  is claimed.
- **Proxy status.** The proxy answers 200 whatever status the function
  returned (`handlers/proxy.go:65`). The model keeps that behaviour.

## Model

| member | source | states |
|---|---|---|
| Services.IsActive | rancher/service.go:28-30 | true exactly when the state is the literal `active` |
| Services.IsActiveOnlyReadsState | rancher/service.go:28-30 | whether a service is active depends on its state and on no other field |
| Services.ActivatingIsNotActive | rancher/service.go:28-30 | the comparison with "active" is exact and case-sensitive: "activating" and "Active" are not active |
| RancherClient.NewClientForConfig | rancher/client.go:17-53 | sends one GET to `<CattleURL>/stacks?name=<stack name>`; returns a client exactly when the answer lists at least one stack, bound to the first stack's ID, with the given config and transport; otherwise the process terminates; never an error |
| RancherClient.Client.ListServices | rancher/client.go:56-60 | sends one GET to `<CattleURL>/stacks/<functionsStackID>/services` and returns the listed services unfiltered; terminates on a transport or decode failure |
| RancherClient.Client.ListServicesInternal | rancher/client.go:98-113 | sends one GET to the given URL; returns the decoded services, or terminates; never returns an error |
| RancherClient.ListingOutcome | rancher/client.go:98-113 | a listing returns exactly when the reply decodes as a service list, returns that list, and is never an error |
| RancherClient.FirstOrNotFound | rancher/client.go:70-74 | succeeds exactly on a non-empty list, with its first element; otherwise the error is `no service <name> found` |
| RancherClient.Client.FindServiceByName | rancher/client.go:63-75 | sends one GET to `<CattleURL>/services?name=<name>`; returns the first service listed, the error `no service <name> found` on an empty list (the only error it can return), and terminates otherwise |
| RancherClient.SingleOutcome | rancher/client.go:132-137 | a create, delete or upgrade returns exactly when the reply decodes as a service, and returns that service; it never returns an error |
| RancherClient.Client.CreateService | rancher/client.go:116-138 | overwrites the caller's spec's stack ID with the client's function stack ID and changes nothing else in it; POSTs the updated spec to `<CattleURL>/services` |
| RancherClient.Client.DeleteService | rancher/client.go:141-156 | sends one DELETE to `<CattleURL>/services/<spec.ID>` |
| RancherClient.Client.UpgradeService | rancher/client.go:159-179 | sends one PUT of the spec to `<CattleURL>/services/<spec.ID>`, the same URL the delete targets |
| RancherClient.ServiceUrlInjective | rancher/client.go:142 | the per-service URL determines the service ID: distinct IDs never share a target |
| Deploy.MatchesDnsPattern | handlers/deploy.go:21-22 | the name pattern holds exactly for non-empty strings whose every character is an ASCII letter or `-` |
| Deploy.ValidateDeployRequest | handlers/deploy.go:20-28 | accepts exactly the non-empty names made of ASCII letters and `-`; otherwise returns `(<name>) must be a valid DNS entry for service name` |
| Deploy.ForeignCharRejected | handlers/deploy.go:21-27 | a name with any character outside the pattern, such as `_` or a digit, is rejected with the error naming it |
| Deploy.EmptyNameRejected | handlers/deploy.go:21-27 | the empty name is rejected |
| Deploy.EnvironmentFor | handlers/deploy.go:71-78 | every caller variable other than `fprocess` is copied unchanged; with a non-empty entry process, `fprocess` maps to it, overriding any caller value; with an empty one, the environment equals the caller's map exactly |
| Deploy.LabelsFor | handlers/deploy.go:80-82 | exactly two labels: `faas_function` mapped to the service name and `io.rancher.container.pull_image` mapped to `always` |
| Deploy.SpecFor | handlers/deploy.go:69-97 | the spec has the request's name, scale 1, the request's image, that environment and those labels; every other field keeps its zero value |
| Deploy.MakeServiceSpec | handlers/deploy.go:69-97 | the spec built by copying the environment entry by entry is exactly that spec |
| Deploy.DeployHandler | handlers/deploy.go:31-67 | undecodable body: 400, empty body, no call; invalid name: 400 with the validation error, no call; otherwise exactly one create call with the spec; a create error is answered 500 with its text, success 202 with an empty body |
| Reader.CollectFunctions | handlers/reader.go:23-36 | with every launch config present, the result is the descriptors of the labelled services in order; a nil launch config aborts the listing |
| Reader.DescriptorsAppend | handlers/reader.go:23-34 | filtering distributes over concatenation, so the output keeps the input's relative order |
| Reader.IsFunction | handlers/reader.go:24 | a service is kept exactly when its launch config is present and its labels contain the key `faas_function`, whatever its value |
| Reader.DescriptorOf | handlers/reader.go:25-30 | a kept service becomes the descriptor with its name, its scale as replicas, its launch config's image UUID, and invocation count 0 |
| Reader.Descriptors | handlers/reader.go:23-34 | the reference filter-and-map: at most one descriptor per input service, each with invocation count 0 |
| Reader.KeptServiceListed | handlers/reader.go:24-31 | every service whose labels contain `faas_function`, whatever its value, appears in the output as `(Name, Scale, ImageUUID, 0)` |
| Reader.ListedComesFromKept | handlers/reader.go:24-31 | every output entry is the descriptor of some labelled input service |
| Reader.NoFunctionsListsNothing | handlers/reader.go:16-36 | with no labelled service the result is the empty list, not an error |
| Reader.ActivatingFunctionListed | handlers/reader.go:23-31 | a labelled service that is not active is still listed: the state is never consulted |
| Reader.DeployedSpecListed | handlers/reader.go:24-30 | a freshly deployed spec lists with its name and replicas 1 but an empty image |
| Reader.GetServiceList | handlers/reader.go:15-37 | exactly one list call; a list error is returned as is; otherwise the labelled services' descriptors are returned, or the listing aborts on a nil launch config |
| Reader.FunctionReader | handlers/reader.go:40-56 | a list error is answered 500 with its text; success is answered 200 with `Content-Type: application/json` and the encoded descriptors; an abort writes nothing |
| Decimal.FormatInt | handlers/replicas.go:49 | the base-10 rendering is non-empty and starts with `-` exactly for negative numbers |
| Decimal.ParseFormatInt | handlers/replicas.go:49 | the decimal rendering of any integer parses back to that integer |
| Replicas.ScaleUpdates | handlers/replicas.go:48-49 | the update map has the single key `scale`, whose value parses back to the requested replica count |
| Replicas.ReplicaUpdater | handlers/replicas.go:19-59 | undecodable body: 400 with `Cannot parse request. Please pass valid JSON.`, no lookup; lookup error: 500 with `Unable to lookup function deployment <name>`, no update; update error: 500 with `Unable to update function deployment <name>`; success: nothing written (200); calls are exactly find, then update of the found service with the scale map |
| Replicas.FirstNamed | handlers/replicas.go:75-81 | nothing is found exactly when no descriptor has the name; otherwise the result is a descriptor with that name, and no earlier descriptor has it |
| Replicas.FindFunction | handlers/replicas.go:75-81 | the scan that stops at the first match returns exactly that first match |
| Replicas.ReplicaReader | handlers/replicas.go:62-93 | exactly one list call; list error: 500; no match: 404; otherwise 200 with a JSON content type and the first matching descriptor encoded |
| Delete.DeleteHandler | handlers/delete.go:16-51 | body always empty; undecodable body or empty name: 400, no call; lookup error: 404 after exactly one lookup, no delete; found: exactly one delete of the very service found, answered 400 on error and 200 on success, even when that service lacks the function label |
| Proxy.TargetUrl | handlers/proxy.go:38-43 | the URL is `http://`, the function name, `.`, the stack name, then `:8080/` |
| Proxy.TargetUrlNamesService | handlers/proxy.go:38-43 | the target URL is `http://<name>.<stack>:8080/`, and for route names (no dots) the function name reads back from it |
| Proxy.CopyHeaders | handlers/proxy.go:71-77 | every source header is written into the destination with its values; headers the source lacks are unchanged; the source is not modified |
| Proxy.ProxyHandler | handlers/proxy.go:18-69 | non-POST: 400, nothing sent; otherwise exactly one POST to the target URL carrying the inbound headers and the inbound body unchanged; unreachable target: 500 with `Can't reach service: <name>`; else 200 whatever the target's status, the target's body, and the target's headers merged into the response headers |

## Left out

- Process plumbing is not modelled (`server.go`, `handlers/handler.go`, `rancher/config.go`). This covers environment reading, routing, the listener and timeouts. Path variables are a plain map instead.
- JSON encoding and decoding are given functions. Replies from the orchestrator arrive already decoded.
- The transport inside `execute` is out of scope (`rancher/client.go:77-96`). This covers the basic-auth and content-type headers, the HTTP call, reading the body and printing the response. Transport and read failures are one `Unreachable` reply.
- `log.Fatal` is the `Fatal` outcome, not process termination. Log lines and the proxy's latency measurement (`handlers/proxy.go:31-36`) are observability only and are not modelled.
- Bodies are modelled as strings of characters, one per byte. No text encoding is modelled.
- The handlers are modelled against the five-operation client interface, not the concrete `Client`. The concrete client offers `UpgradeService(spec)` rather than `UpdateService(spec, updates)`, and its `DeleteService` returns a service as well as an error. So the two are modelled side by side, not connected.
- Lookup results of the form `(nil, nil)` are not modelled. Only a test double can produce them. A lookup either returns a service or an error.
- A panic in a handler is only reported as `panicked`. The server's recovery from it is not modelled.
- `Proxy.ProxyHandler`: the error `http.NewRequest` returns for an unparsable URL is not modelled (`handlers/proxy.go:45`). The source ignores the error, so the request is nil, and `copyHeaders(&request.Header, …)` at `handlers/proxy.go:47` then dereferences it and panics. The model always builds the outbound request and sends it.
- `RancherClient.NewClientForConfig` / `Client.ListServicesInternal`: a request that cannot be built is not modelled (`rancher/client.go:20-23`, `78-80`). For example, a name holding a control character makes the URL unparsable. The model folds this case into the oracle's reply, and the request still appears in `sent`. The source terminates the process without sending anything. Through `FindServiceByName` this reaches the delete handler, so one such delete request ends the process.
- `RancherClient.NewClientForConfig`: the access and secret keys are not used. The source sends them as basic-auth credentials (`rancher/client.go:24`, `83`); the model carries them in `Config` only.
- `Http.Header.Set`: header-name canonicalisation is not modelled. Keys are stored as given.
- `Proxy.CopyHeaders` takes the source headers as a value. Go copies each value slice (`vvClone`), and the value model has that same effect. Aliasing between the source and destination maps is not modelled.
- `DeployHandler`, `DeleteHandler` and `ProxyHandler` require a request body (a non-nil `Body`), since the source closes and reads it unconditionally. `ReplicaUpdater` handles a missing body as the source does.
- Fields of the deploy request that the bridge never reads are omitted (network, constraints and the like). The invocation count, a float in the descriptor, is the integer 0.

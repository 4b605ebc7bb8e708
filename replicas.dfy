/**
 * Reading and writing a function's replica count (handlers/replicas.go).
 */
module Replicas {
  import opened Wrappers
  import opened Services
  import opened Http
  import opened Bridge
  import opened Decimal
  import opened Reader

  /** The body of a scale request: the desired replica count, a signed 64-bit integer. */
  datatype ScaleServiceRequest = ScaleServiceRequest(replicas: int64)

  const ParseErrorMessage: string := "Cannot parse request. Please pass valid JSON."

  function LookupErrorMessage(name: string): string {
    "Unable to lookup function deployment " + name
  }

  function UpdateErrorMessage(name: string): string {
    "Unable to update function deployment " + name
  }

  /**
   * The partial update sent to the orchestrator: the single field `scale`,
   * holding the decimal rendering of the count, which reads back as the count.
   */
  function ScaleUpdates(replicas: int64): (updates: map<string, string>)
    ensures updates.Keys == {"scale"}
    ensures ParseInt(updates["scale"]) == Some(replicas as int)
  {
    ParseFormatInt(replicas as int);
    map["scale" := FormatInt(replicas as int)]
  }

  /**
   * The scale request a request yields: a missing body leaves the zero
   * request; otherwise the body must decode.
   */
  function DecodedScale(r: Request, decode: string -> Option<ScaleServiceRequest>): Option<ScaleServiceRequest> {
    if r.body.None? then Some(ScaleServiceRequest(0)) else decode(r.body.value)
  }

  /**
   * The scale-write handler. An undecodable body is answered 400 with a
   * fixed message and nothing is looked up; a lookup error is answered 500
   * and nothing is updated; an update error is answered 500; on success
   * nothing is written, so the caller sees 200.
   */
  method ReplicaUpdater(
    client: BridgeClient, w: ResponseWriter, r: Request, vars: map<string, string>,
    decode: string -> Option<ScaleServiceRequest>)
    requires w.Untouched()
    modifies client, w
    ensures DecodedScale(r, decode).None? ==>
      w.Status() == StatusBadRequest && w.body == ParseErrorMessage && client.calls == old(client.calls)
    ensures var name := Var(vars, "name");
      DecodedScale(r, decode).Some? && client.findAnswer(name).Err? ==>
        && client.calls == old(client.calls) + [FindCall(name)]
        && w.Status() == StatusInternalServerError && w.body == LookupErrorMessage(name)
    ensures var name := Var(vars, "name");
      DecodedScale(r, decode).Some? && client.findAnswer(name).Ok? ==>
        var service := client.findAnswer(name).value;
        var updates := ScaleUpdates(DecodedScale(r, decode).value.replicas);
        && client.calls == old(client.calls) + [FindCall(name), UpdateCall(service, updates)]
        && (client.updateAnswer(service, updates).Err? ==>
              w.Status() == StatusInternalServerError && w.body == UpdateErrorMessage(name))
        && (client.updateAnswer(service, updates).Ok? ==> w.Untouched() && w.Status() == StatusOK)
  {
    var functionName := Var(vars, "name");

    var req := ScaleServiceRequest(0);
    if r.body.Some? {
      var decoded := decode(r.body.value);
      if decoded.None? {
        w.WriteHeader(StatusBadRequest);
        w.Write(ParseErrorMessage);
        return;
      }
      req := decoded.value;
    }

    var service := client.FindServiceByName(functionName);
    if service.Err? {
      w.WriteHeader(StatusInternalServerError);
      w.Write(LookupErrorMessage(functionName));
      return;
    }

    var updates: map<string, string> := map[];
    updates := updates["scale" := FormatInt(req.replicas as int)];
    var updated := client.UpdateService(service.value, updates);
    if updated.Err? {
      w.WriteHeader(StatusInternalServerError);
      w.Write(UpdateErrorMessage(functionName));
      return;
    }
  }

  /** The first descriptor with the given name, if any. */
  function FirstNamed(functions: seq<Function>, name: string): (found: Option<Function>)
    ensures found.None? <==> forall i :: 0 <= i < |functions| ==> functions[i].name != name
    ensures found.Some? ==>
      exists i :: 0 <= i < |functions| && functions[i] == found.value && found.value.name == name
               && forall j :: 0 <= j < i ==> functions[j].name != name
    decreases |functions|
  {
    if functions == [] then None
    else if functions[0].name == name then Some(functions[0])
    else FirstNamed(functions[1..], name)
  }

  /** The scan of the reader: stop at the first descriptor whose name matches. */
  method FindFunction(functions: seq<Function>, name: string) returns (found: Option<Function>)
    ensures found == FirstNamed(functions, name)
  {
    found := None;
    var i := 0;
    while i < |functions|
      invariant 0 <= i <= |functions|
      invariant FirstNamed(functions, name) == FirstNamed(functions[i..], name)
    {
      if functions[i].name == name {
        found := Some(functions[i]);
        break;
      }
      assert functions[i..][1..] == functions[i + 1..];
      i := i + 1;
    }
  }

  /**
   * The scale-read handler: a listing error is answered 500; the first
   * listed function with the path's name is answered 200 with a JSON
   * content type; no match is answered 404. A nil launch config aborts the
   * handler before anything is written.
   */
  method ReplicaReader(
    client: BridgeClient, w: ResponseWriter, vars: map<string, string>, encode: Function -> string)
    returns (panicked: bool)
    requires w.Untouched()
    modifies client, w, w.header
    ensures client.calls == old(client.calls) + [ListCall]
    ensures var listing := ListingOf(client.listAnswer);
      && (panicked <==> listing.Panicked?)
      && (listing.Panicked? ==> w.Untouched() && w.header.entries == old(w.header.entries))
      && (listing.ListFailed? ==>
            w.Status() == StatusInternalServerError && w.body == []
            && w.header.entries == old(w.header.entries))
      && (listing.Listed? && FirstNamed(listing.functions, Var(vars, "name")).None? ==>
            w.Status() == StatusNotFound && w.body == []
            && w.header.entries == old(w.header.entries))
      && (listing.Listed? && FirstNamed(listing.functions, Var(vars, "name")).Some? ==>
            && w.Status() == StatusOK
            && w.header.entries == old(w.header.entries)["Content-Type" := ["application/json"]]
            && w.body == encode(FirstNamed(listing.functions, Var(vars, "name")).value))
  {
    var functionName := Var(vars, "name");

    var functions := GetServiceList(client);
    if functions.Panicked? {
      return true;
    }
    if functions.ListFailed? {
      w.WriteHeader(StatusInternalServerError);
      return false;
    }

    var found := FindFunction(functions.functions, functionName);
    if found.None? {
      w.WriteHeader(StatusNotFound);
      return false;
    }

    var functionBytes := encode(found.value);
    w.header.Set("Content-Type", "application/json");
    w.WriteHeader(StatusOK);
    w.Write(functionBytes);
    return false;
  }
}

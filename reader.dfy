/**
 * Listing functions (handlers/reader.go): the orchestrator's services are
 * filtered down to those carrying the managed-function label and mapped to
 * function descriptors, in order.
 */
module Reader {
  import opened Wrappers
  import opened Services
  import opened Http
  import opened Bridge
  import Deploy

  /** The label key whose presence marks a service as a managed function. */
  const FunctionLabelKey: string := "faas_function"

  /** The platform's view of a deployed function. */
  datatype Function = Function(name: string, replicas: uint64, image: string, invocationCount: int)

  /** Whether the listing keeps the service: its launch config carries the label, whatever its value or the service's state. */
  predicate IsFunction(s: Service)
    ensures IsFunction(s) ==> s.launchConfig.Some?
    ensures IsFunction(s) <==> s.launchConfig.Some? && "faas_function" in s.launchConfig.value.labels
  {
    s.launchConfig.Some? && FunctionLabelKey in s.launchConfig.value.labels
  }

  /** The descriptor of a service: its name, its scale as the replica count, its image UUID, no invocations. */
  function DescriptorOf(s: Service): (f: Function)
    requires s.launchConfig.Some?
    ensures f.name == s.name && f.replicas == s.scale
    ensures f.image == s.launchConfig.value.imageUuid && f.invocationCount == 0
  {
    Function(s.name, s.scale, s.launchConfig.value.imageUuid, 0)
  }

  /** The descriptors of the kept services, in input order: at most one per service, none counting invocations. */
  function Descriptors(services: seq<Service>): (functions: seq<Function>)
    ensures |functions| <= |services|
    ensures forall j :: 0 <= j < |functions| ==> functions[j].invocationCount == 0
    decreases |services|
  {
    if services == [] then []
    else (if IsFunction(services[0]) then [DescriptorOf(services[0])] else [])
         + Descriptors(services[1..])
  }

  /** Every service has a launch config, so the label lookup never dereferences nil. */
  predicate AllConfigured(services: seq<Service>) {
    forall i :: 0 <= i < |services| ==> services[i].launchConfig.Some?
  }

  /** Filtering distributes over concatenation, so the output keeps the input's order. */
  lemma {:induction false} DescriptorsAppend(a: seq<Service>, b: seq<Service>)
    ensures Descriptors(a + b) == Descriptors(a) + Descriptors(b)
    decreases |a|
  {
    if a != [] {
      assert (a + b)[1..] == a[1..] + b;
      DescriptorsAppend(a[1..], b);
    } else {
      assert a + b == b;
    }
  }

  /** Every kept service appears in the output, as its descriptor. */
  lemma {:induction false} KeptServiceListed(services: seq<Service>, i: int)
    requires 0 <= i < |services| && IsFunction(services[i])
    ensures DescriptorOf(services[i]) in Descriptors(services)
    decreases |services|
  {
    if i > 0 {
      KeptServiceListed(services[1..], i - 1);
    }
  }

  /** Every output entry is the descriptor of some kept input service. */
  lemma {:induction false} ListedComesFromKept(services: seq<Service>, f: Function)
    requires f in Descriptors(services)
    ensures exists i :: 0 <= i < |services| && IsFunction(services[i]) && f == DescriptorOf(services[i])
    decreases |services|
  {
    if !(IsFunction(services[0]) && f == DescriptorOf(services[0])) {
      ListedComesFromKept(services[1..], f);
      var i :| 0 <= i < |services[1..]| && IsFunction(services[1..][i]) && f == DescriptorOf(services[1..][i]);
      assert services[i + 1] == services[1..][i];
    }
  }

  /** With no labelled service the result is the empty list, not an error. */
  lemma {:induction false} NoFunctionsListsNothing(services: seq<Service>)
    requires forall i :: 0 <= i < |services| ==> !IsFunction(services[i])
    ensures Descriptors(services) == []
    decreases |services|
  {
    if services != [] {
      NoFunctionsListsNothing(services[1..]);
    }
  }

  /** A labelled service is listed even while it is still "activating": the state is never consulted. */
  lemma ActivatingFunctionListed(s: Service)
    requires s.state == "activating" && IsFunction(s)
    ensures !IsActive(s)
    ensures Descriptors([s]) == [Function(s.name, s.scale, s.launchConfig.value.imageUuid, 0)]
  {
  }

  /**
   * A freshly deployed spec is listed with its name and scale 1, but its
   * image comes back empty: deploying writes `image`, listing reads `imageUuid`.
   */
  lemma DeployedSpecListed(request: Deploy.CreateFunctionRequest)
    ensures Descriptors([Deploy.SpecFor(request)]) == [Function(request.service, 1, "", 0)]
  {
  }

  /** What listing the functions produces. */
  datatype ServiceList =
    | Listed(functions: seq<Function>)
    | ListFailed(error: string)
    | Panicked   // a service without a launch config was dereferenced

  /** The listing the orchestrator's answer leads to. */
  function ListingOf(answer: Result<seq<Service>>): ServiceList {
    match answer
    case Err(e) => ListFailed(e)
    case Ok(services) => if AllConfigured(services) then Listed(Descriptors(services)) else Panicked
  }

  /** The filtering loop: keep labelled services, in order, stopping at the first nil launch config. */
  method CollectFunctions(services: seq<Service>) returns (r: ServiceList)
    ensures r.Panicked? <==> !AllConfigured(services)
    ensures r.Listed? <==> AllConfigured(services)
    ensures r.Listed? ==> r.functions == Descriptors(services)
  {
    var functions: seq<Function> := [];
    var i := 0;
    while i < |services|
      invariant 0 <= i <= |services|
      invariant AllConfigured(services[..i])
      invariant functions == Descriptors(services[..i])
    {
      var service := services[i];
      if service.launchConfig.None? {
        return Panicked;
      }
      DescriptorsAppend(services[..i], [service]);
      assert services[..i + 1] == services[..i] + [service];
      if FunctionLabelKey in service.launchConfig.value.labels {
        var descriptor := Function(service.name, service.scale, service.launchConfig.value.imageUuid, 0);
        functions := functions + [descriptor];
      }
      i := i + 1;
    }
    assert services[..i] == services;
    return Listed(functions);
  }

  method GetServiceList(client: BridgeClient) returns (r: ServiceList)
    modifies client
    ensures client.calls == old(client.calls) + [ListCall]
    ensures r == ListingOf(client.listAnswer)
  {
    var services := client.ListServices();
    if services.Err? {
      return ListFailed(services.error);
    }
    r := CollectFunctions(services.value);
  }

  /**
   * The list handler: a listing error is answered 500 with its text;
   * otherwise 200, a JSON content type and the encoded descriptors. A nil
   * launch config aborts the handler before anything is written.
   */
  method FunctionReader(client: BridgeClient, w: ResponseWriter, encode: seq<Function> -> string)
    returns (panicked: bool)
    requires w.Untouched()
    modifies client, w, w.header
    ensures client.calls == old(client.calls) + [ListCall]
    ensures var listing := ListingOf(client.listAnswer);
      && (panicked <==> listing.Panicked?)
      && (listing.Panicked? ==> w.Untouched() && w.header.entries == old(w.header.entries))
      && (listing.ListFailed? ==>
            w.Status() == StatusInternalServerError && w.body == listing.error
            && w.header.entries == old(w.header.entries))
      && (listing.Listed? ==>
            && w.Status() == StatusOK
            && w.header.entries == old(w.header.entries)["Content-Type" := ["application/json"]]
            && w.body == encode(listing.functions))
  {
    var functions := GetServiceList(client);
    if functions.Panicked? {
      return true;
    }
    if functions.ListFailed? {
      w.WriteHeader(StatusInternalServerError);
      w.Write(functions.error);
      return false;
    }

    var functionBytes := encode(functions.functions);
    w.header.Set("Content-Type", "application/json");
    w.WriteHeader(StatusOK);
    w.Write(functionBytes);
    return false;
  }
}

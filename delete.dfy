/**
 * Deleting a function (handlers/delete.go): a chain of guards, each
 * answering with its own status, before the one delete call.
 */
module Delete {
  import opened Wrappers
  import opened Services
  import opened Http
  import opened Bridge
  import Reader

  datatype DeleteFunctionRequest = DeleteFunctionRequest(functionName: string)

  /**
   * The delete handler. An undecodable body or an empty name is answered
   * 400 without any lookup; a lookup error of any kind is answered 404 and
   * nothing is deleted; otherwise exactly the service found is deleted, a
   * delete error being answered 400 and success 200, always with an empty body.
   */
  method DeleteHandler(
    client: BridgeClient, w: ResponseWriter, r: Request,
    decode: string -> Option<DeleteFunctionRequest>)
    requires r.body.Some?
    requires w.Untouched()
    modifies client, w
    ensures w.body == []
    ensures decode(r.body.value).None? ==>
      w.Status() == StatusBadRequest && client.calls == old(client.calls)
    ensures var decoded := decode(r.body.value);
      decoded.Some? && decoded.value.functionName == "" ==>
        w.Status() == StatusBadRequest && client.calls == old(client.calls)
    ensures var decoded := decode(r.body.value);
      decoded.Some? && decoded.value.functionName != "" ==>
        var name := decoded.value.functionName;
        && (client.findAnswer(name).Err? ==>
              w.Status() == StatusNotFound && client.calls == old(client.calls) + [FindCall(name)])
        && (client.findAnswer(name).Ok? ==>
              var service := client.findAnswer(name).value;
              && client.calls == old(client.calls) + [FindCall(name), DeleteCall(service)]
              && (client.deleteAnswer(service).Some? ==> w.Status() == StatusBadRequest)
              && (client.deleteAnswer(service).None? ==> w.Status() == StatusOK))
    // The lookup does not confine deletion to managed functions: a service
    // found under the name is deleted even when it lacks the function label.
    ensures var decoded := decode(r.body.value);
      decoded.Some? && decoded.value.functionName != "" && client.findAnswer(decoded.value.functionName).Ok?
      && !Reader.IsFunction(client.findAnswer(decoded.value.functionName).value) ==>
        DeleteCall(client.findAnswer(decoded.value.functionName).value) in client.calls
  {
    var request := decode(r.body.value);
    if request.None? {
      w.WriteHeader(StatusBadRequest);
      return;
    }

    if |request.value.functionName| == 0 {
      w.WriteHeader(StatusBadRequest);
      return;
    }

    // The lookup is meant to keep unlabelled services from being deleted,
    // but it matches by name only.
    var service := client.FindServiceByName(request.value.functionName);
    if service.Err? {
      w.WriteHeader(StatusNotFound);
      return;
    }

    var delErr := client.DeleteService(service.value);
    if delErr.Some? {
      w.WriteHeader(StatusBadRequest);
      return;
    }

    w.WriteHeader(StatusOK);
  }
}

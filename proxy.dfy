/**
 * The invocation proxy (handlers/proxy.go): a POST to a function is
 * forwarded to the function's in-cluster address and the answer relayed.
 */
module Proxy {
  import opened Wrappers
  import opened Http

  /** The request the proxy sends on to the function. */
  datatype OutboundRequest = OutboundRequest(verb: string, url: string, header: HeaderMap, body: string)

  /** The function's answer. */
  datatype TargetResponse = TargetResponse(status: int, header: HeaderMap, body: string)

  /** The HTTP client the proxy is given: an oracle (None when the target cannot be reached) plus the log of requests sent. */
  class Doer {
    const answer: OutboundRequest -> Option<TargetResponse>
    var sent: seq<OutboundRequest>

    constructor (answer: OutboundRequest -> Option<TargetResponse>)
      ensures this.answer == answer && sent == []
    {
      this.answer := answer;
      sent := [];
    }

    method Do(request: OutboundRequest) returns (response: Option<TargetResponse>)
      modifies this
      ensures sent == old(sent) + [request]
      ensures response == answer(request)
    {
      sent := sent + [request];
      response := answer(request);
    }
  }

  /** The port the function's watchdog listens on. */
  const WatchdogPort: string := "8080"

  /** The function's address inside the cluster: its name, qualified by the stack, on the watchdog port. */
  function TargetUrl(service: string, stackName: string): (url: string)
    ensures |url| == |service| + |stackName| + 14
    ensures url[..7] == "http://" && url[7..7 + |service|] == service && url[7 + |service|] == '.'
    ensures url[|url| - 6..] == ":8080/"
  {
    "http://" + service + "." + stackName + ":" + WatchdogPort + "/"
  }

  /** The text of `s` up to its first dot. */
  function FirstLabel(s: string): string {
    if s == [] || s[0] == '.' then [] else [s[0]] + FirstLabel(s[1..])
  }

  /** The function an address is meant for: the first host label after the scheme. */
  function ServiceOfUrl(url: string): Option<string> {
    if |url| >= 7 && url[..7] == "http://" then Some(FirstLabel(url[7..])) else None
  }

  lemma {:induction false} FirstLabelOfQualified(name: string, rest: string)
    requires forall i :: 0 <= i < |name| ==> name[i] != '.'
    ensures FirstLabel(name + "." + rest) == name
    decreases |name|
  {
    if name != [] {
      assert (name + "." + rest)[1..] == name[1..] + "." + rest;
      FirstLabelOfQualified(name[1..], rest);
    }
  }

  /**
   * The address names the function it was built for, so distinct function
   * names (which the routes restrict to letters, digits, `-` and `_`) never
   * share a target.
   */
  lemma TargetUrlNamesService(service: string, stackName: string)
    requires forall i :: 0 <= i < |service| ==> service[i] != '.'
    ensures ServiceOfUrl(TargetUrl(service, stackName)) == Some(service)
  {
    var url := TargetUrl(service, stackName);
    assert url[..7] == "http://";
    assert url[7..] == service + "." + (stackName + ":" + WatchdogPort + "/");
    FirstLabelOfQualified(service, stackName + ":" + WatchdogPort + "/");
  }

  /**
   * Every header of `source` is written into `destination`, replacing what
   * was there; headers `source` lacks are left as they were.
   */
  method CopyHeaders(destination: Header, source: HeaderMap)
    modifies destination
    ensures forall k :: k in source ==> k in destination.entries && destination.entries[k] == source[k]
    ensures forall k :: k !in source ==> (k in destination.entries <==> k in old(destination.entries))
    ensures forall k :: k !in source && k in old(destination.entries) ==>
      destination.entries[k] == old(destination.entries)[k]
  {
    var pending := source.Keys;
    while pending != {}
      invariant pending <= source.Keys
      invariant forall k :: k in source && k !in pending ==>
        k in destination.entries && destination.entries[k] == source[k]
      invariant forall k :: k !in source || k in pending ==>
        (k in destination.entries <==> k in old(destination.entries))
      invariant forall k :: (k !in source || k in pending) && k in old(destination.entries) ==>
        destination.entries[k] == old(destination.entries)[k]
      decreases pending
    {
      var k :| k in pending;
      destination.entries := destination.entries[k := source[k]];
      pending := pending - {k};
    }
  }

  function UnreachableMessage(service: string): string {
    "Can't reach service: " + service
  }

  /**
   * The proxy handler. Anything but POST is answered 400 and nothing is
   * sent. Otherwise the body and headers are forwarded in a POST to the
   * function's address; if it cannot be reached the answer is 500 naming
   * the function, else 200 (whatever the function's own status) with the
   * function's headers and body.
   */
  method ProxyHandler(
    doer: Doer, stackName: string, w: ResponseWriter, r: Request, vars: map<string, string>)
    requires r.body.Some?
    requires w.Untouched()
    modifies doer, w, w.header
    ensures r.verb != "POST" ==>
      && w.Status() == StatusBadRequest && w.body == []
      && w.header.entries == old(w.header.entries) && doer.sent == old(doer.sent)
    ensures r.verb == "POST" ==>
      var service := Var(vars, "name");
      var outbound := OutboundRequest("POST", TargetUrl(service, stackName), r.header, r.body.value);
      && doer.sent == old(doer.sent) + [outbound]
      && (doer.answer(outbound).None? ==>
            && w.Status() == StatusInternalServerError && w.body == UnreachableMessage(service)
            && w.header.entries == old(w.header.entries))
      && (doer.answer(outbound).Some? ==>
            && w.Status() == StatusOK
            && w.body == doer.answer(outbound).value.body
            && w.header.entries == old(w.header.entries) + doer.answer(outbound).value.header)
  {
    if r.verb != "POST" {
      w.WriteHeader(StatusBadRequest);
      return;
    }

    var service := Var(vars, "name");
    var requestBody := r.body.value;
    var url := TargetUrl(service, stackName);

    var outboundHeader := new Header();
    CopyHeaders(outboundHeader, r.header);
    assert outboundHeader.entries == r.header;
    var request := OutboundRequest("POST", url, outboundHeader.entries, requestBody);

    var response := doer.Do(request);
    if response.None? {
      w.WriteHeader(StatusInternalServerError);
      w.Write(UnreachableMessage(service));
      return;
    }

    ghost var before := w.header.entries;
    CopyHeaders(w.header, response.value.header);
    assert w.header.entries == before + response.value.header;

    w.WriteHeader(StatusOK);
    w.Write(response.value.body);
  }
}

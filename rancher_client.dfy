/**
 * The orchestrator's REST client (rancher/client.go): which URL each
 * operation requests, what it sends, and how it selects from and reports on
 * what comes back. The HTTP transport, authentication and JSON coding are
 * abstracted into a Transport oracle whose replies arrive already decoded.
 * Every `log.Fatal` of the source ends the process; here it is the
 * `Fatal` outcome.
 */
module RancherClient {
  import opened Wrappers
  import opened Services

  datatype Config = Config(
    functionsStackName: string,
    cattleUrl: string,
    cattleAccessKey: string,
    cattleSecretKey: string)

  datatype Stack = Stack(id: string)

  datatype Verb = MethodGet | MethodPost | MethodPut | MethodDelete

  /** One request sent to the orchestrator API, with the record it carries as its JSON body. */
  datatype ApiRequest = ApiRequest(verb: Verb, url: string, payload: Option<Service>)

  /**
   * What the orchestrator answered, as it decodes. `Unreachable` stands for
   * a transport or read failure; a reply that does not decode into the shape
   * the caller expects is a decoding failure.
   */
  datatype ApiReply =
    | Unreachable
    | StackList(stacks: seq<Stack>)
    | ServiceList(services: seq<Service>)
    | ServiceBody(service: Service)
    | Undecodable

  /** A client call either returns, returns an error, or terminates the process. */
  datatype Outcome<+T> = Returned(value: T) | Failed(error: string) | Fatal

  /** The HTTP client the REST client is given: an oracle plus the log of requests sent. */
  class Transport {
    const answer: ApiRequest -> ApiReply
    var sent: seq<ApiRequest>

    constructor (answer: ApiRequest -> ApiReply)
      ensures this.answer == answer && sent == []
    {
      this.answer := answer;
      sent := [];
    }

    method Do(request: ApiRequest) returns (reply: ApiReply)
      modifies this
      ensures sent == old(sent) + [request]
      ensures reply == answer(request)
    {
      sent := sent + [request];
      reply := answer(request);
    }
  }

  function StacksQueryUrl(config: Config): string {
    config.cattleUrl + "/stacks?name=" + config.functionsStackName
  }

  function StackServicesUrl(cattleUrl: string, stackId: string): string {
    cattleUrl + "/stacks/" + stackId + "/services"
  }

  function ServicesQueryUrl(cattleUrl: string, name: string): string {
    cattleUrl + "/services?name=" + name
  }

  function ServicesUrl(cattleUrl: string): string {
    cattleUrl + "/services"
  }

  function ServiceUrl(cattleUrl: string, id: string): string {
    ServicesUrl(cattleUrl) + "/" + id
  }

  /** The per-service URL names exactly one service: distinct IDs give distinct URLs. */
  lemma ServiceUrlInjective(cattleUrl: string, id1: string, id2: string)
    requires ServiceUrl(cattleUrl, id1) == ServiceUrl(cattleUrl, id2)
    ensures id1 == id2
  {
    var prefix := ServicesUrl(cattleUrl) + "/";
    assert ServiceUrl(cattleUrl, id1)[|prefix|..] == id1;
    assert ServiceUrl(cattleUrl, id2)[|prefix|..] == id2;
  }

  function NotFoundMessage(name: string): string {
    "no service " + name + " found"
  }

  /** First-match selection: the first listed service, or the not-found error when there is none. */
  function FirstOrNotFound(services: seq<Service>, name: string): (r: Result<Service>)
    ensures r.Ok? <==> |services| > 0
    ensures r.Ok? ==> r.value == services[0]
    ensures r.Err? ==> r.error == NotFoundMessage(name)
  {
    if |services| == 0 then Err(NotFoundMessage(name)) else Ok(services[0])
  }

  /**
   * The outcome of a listing request. Transport and decoding failures are
   * fatal, so a listing never returns an error.
   */
  function ListingOutcome(reply: ApiReply): (r: Outcome<seq<Service>>)
    ensures !r.Failed?
    ensures r.Returned? <==> reply.ServiceList?
    ensures r.Returned? ==> r.value == reply.services
  {
    if reply.ServiceList? then Returned(reply.services) else Fatal
  }

  /** The outcome of a request answered with a single service record. */
  function SingleOutcome(reply: ApiReply): (r: Outcome<Service>)
    ensures !r.Failed?
    ensures r.Returned? <==> reply.ServiceBody?
    ensures r.Returned? ==> r.value == reply.service
  {
    if reply.ServiceBody? then Returned(reply.service) else Fatal
  }

  /** The caller-owned service record behind a `*Service` pointer. */
  class ServiceRef {
    var value: Service

    constructor (value: Service)
      ensures this.value == value
    {
      this.value := value;
    }
  }

  /**
   * Looks up the function stack by name and builds a client bound to the
   * first stack returned; with no stack, or any failure on the way, the
   * process terminates.
   */
  method NewClientForConfig(config: Config, c: Transport) returns (r: Outcome<Client>)
    modifies c
    ensures c.sent == old(c.sent) + [ApiRequest(MethodGet, StacksQueryUrl(config), None)]
    ensures var reply := c.answer(ApiRequest(MethodGet, StacksQueryUrl(config), None));
      && (r.Returned? <==> reply.StackList? && |reply.stacks| > 0)
      && (r.Returned? ==> fresh(r.value) && r.value.http == c && r.value.config == config
                          && r.value.functionsStackId == reply.stacks[0].id)
    ensures !r.Failed?
  {
    var reply := c.Do(ApiRequest(MethodGet, StacksQueryUrl(config), None));
    if !reply.StackList? {
      return Fatal;
    }
    if |reply.stacks| == 0 {
      return Fatal;
    }
    var stack := reply.stacks[0];
    var client := new Client(c, config, stack.id);
    return Returned(client);
  }

  class Client {
    const http: Transport
    const config: Config
    const functionsStackId: string

    constructor (http: Transport, config: Config, functionsStackId: string)
      ensures this.http == http && this.config == config
      ensures this.functionsStackId == functionsStackId
    {
      this.http := http;
      this.config := config;
      this.functionsStackId := functionsStackId;
    }

    /** All services of the function stack, unfiltered. */
    method ListServices() returns (r: Outcome<seq<Service>>)
      modifies http
      ensures var request := ApiRequest(MethodGet, StackServicesUrl(config.cattleUrl, functionsStackId), None);
        http.sent == old(http.sent) + [request] && r == ListingOutcome(http.answer(request))
    {
      r := ListServicesInternal(StackServicesUrl(config.cattleUrl, functionsStackId));
    }

    /**
     * The first service the name query returns; an empty answer is the
     * not-found error, the only error this operation can return.
     */
    method FindServiceByName(name: string) returns (r: Outcome<Service>)
      modifies http
      ensures var request := ApiRequest(MethodGet, ServicesQueryUrl(config.cattleUrl, name), None);
        && http.sent == old(http.sent) + [request]
        && var reply := http.answer(request);
        && (!reply.ServiceList? ==> r == Fatal)
        && (reply.ServiceList? && |reply.services| > 0 ==> r == Returned(reply.services[0]))
        && (reply.ServiceList? && |reply.services| == 0 ==> r == Failed(NotFoundMessage(name)))
      ensures r.Failed? ==> r.error == NotFoundMessage(name)
    {
      var listing := ListServicesInternal(ServicesQueryUrl(config.cattleUrl, name));
      if listing.Failed? {
        // The listing never reports an error (see ListingOutcome), so the
        // source's early return of it cannot be taken.
        assert false;
      } else if listing.Fatal? {
        r := Fatal;
      } else {
        var first := FirstOrNotFound(listing.value, name);
        if first.Err? {
          r := Failed(first.error);
        } else {
          r := Returned(first.value);
        }
      }
    }

    method ListServicesInternal(url: string) returns (r: Outcome<seq<Service>>)
      modifies http
      ensures http.sent == old(http.sent) + [ApiRequest(MethodGet, url, None)]
      ensures r == ListingOutcome(http.answer(ApiRequest(MethodGet, url, None)))
    {
      var reply := http.Do(ApiRequest(MethodGet, url, None));
      if !reply.ServiceList? {
        return Fatal;
      }
      return Returned(reply.services);
    }

    /**
     * Creates a service under the function stack. The caller's record is
     * changed in place: its stack ID becomes the client's, and nothing else
     * about it changes; that updated record is what is sent.
     */
    method CreateService(spec: ServiceRef) returns (r: Outcome<Service>)
      modifies spec, http
      ensures spec.value == old(spec.value).(stackId := functionsStackId)
      ensures var request := ApiRequest(MethodPost, ServicesUrl(config.cattleUrl), Some(spec.value));
        http.sent == old(http.sent) + [request] && r == SingleOutcome(http.answer(request))
    {
      spec.value := spec.value.(stackId := functionsStackId);
      var reply := http.Do(ApiRequest(MethodPost, ServicesUrl(config.cattleUrl), Some(spec.value)));
      r := SingleOutcome(reply);
    }

    /** Deletes the service the record's ID names. */
    method DeleteService(spec: Service) returns (r: Outcome<Service>)
      modifies http
      ensures var request := ApiRequest(MethodDelete, ServiceUrl(config.cattleUrl, spec.id), None);
        http.sent == old(http.sent) + [request] && r == SingleOutcome(http.answer(request))
    {
      var reply := http.Do(ApiRequest(MethodDelete, ServiceUrl(config.cattleUrl, spec.id), None));
      r := SingleOutcome(reply);
    }

    /** Replaces the service the record's ID names with the record. */
    method UpgradeService(spec: Service) returns (r: Outcome<Service>)
      modifies http
      ensures var request := ApiRequest(MethodPut, ServiceUrl(config.cattleUrl, spec.id), Some(spec));
        http.sent == old(http.sent) + [request] && r == SingleOutcome(http.answer(request))
    {
      var reply := http.Do(ApiRequest(MethodPut, ServiceUrl(config.cattleUrl, spec.id), Some(spec)));
      r := SingleOutcome(reply);
    }
  }
}

/**
 * Deploying a function (handlers/deploy.go): name validation, the
 * translation of a function request into an orchestrator service spec, and
 * the handler's status mapping.
 */
module Deploy {
  import opened Wrappers
  import opened Services
  import opened Http
  import opened Bridge

  /** The label that marks an orchestrator service as a managed function. */
  const FaasFunctionLabel: string := "faas_function"
  /** The orchestrator hint asking for the image to be pulled on every start. */
  const PullImageLabel: string := "io.rancher.container.pull_image"
  /** The reserved environment variable that names the function's entry process. */
  const ProcessEnvKey: string := "fprocess"

  /** The fields of a deploy request the bridge reads. */
  datatype CreateFunctionRequest = CreateFunctionRequest(
    service: string,
    image: string,
    envProcess: string,
    envVars: map<string, string>)

  /** A character the name pattern `^[a-zA-Z\-]+$` admits. */
  predicate IsDnsChar(c: char) {
    ('a' <= c <= 'z') || ('A' <= c <= 'Z') || c == '-'
  }

  /** The name pattern, matched one character at a time. */
  function MatchesDnsPattern(s: string): (matched: bool)
    ensures matched <==> |s| > 0 && forall i :: 0 <= i < |s| ==> IsDnsChar(s[i])
  {
    |s| > 0 && IsDnsChar(s[0]) && (|s| == 1 || MatchesDnsPattern(s[1..]))
  }

  function InvalidNameMessage(name: string): string {
    "(" + name + ") must be a valid DNS entry for service name"
  }

  /**
   * Accepts a service name exactly when it is a non-empty run of ASCII
   * letters and hyphens; otherwise returns the error naming it.
   */
  function ValidateDeployRequest(request: CreateFunctionRequest): (err: Option<string>)
    ensures err.None? <==> |request.service| > 0 && forall i :: 0 <= i < |request.service| ==> IsDnsChar(request.service[i])
    ensures err.Some? ==> err.value == InvalidNameMessage(request.service)
  {
    if MatchesDnsPattern(request.service) then None else Some(InvalidNameMessage(request.service))
  }

  /** One character outside the pattern, an underscore or a digit say, is enough to reject a name. */
  lemma ForeignCharRejected(request: CreateFunctionRequest, i: int)
    requires 0 <= i < |request.service| && !IsDnsChar(request.service[i])
    ensures ValidateDeployRequest(request) == Some(InvalidNameMessage(request.service))
  {
  }

  lemma EmptyNameRejected(request: CreateFunctionRequest)
    requires request.service == ""
    ensures ValidateDeployRequest(request) == Some(InvalidNameMessage(""))
  {
  }

  /** The environment of a new service: the caller's variables, with the entry process under its reserved key. */
  function EnvironmentFor(envVars: map<string, string>, envProcess: string): (env: map<string, string>)
    ensures forall k :: k in envVars && k != ProcessEnvKey ==> k in env && env[k] == envVars[k]
    ensures env.Keys == if |envProcess| > 0 then envVars.Keys + {ProcessEnvKey} else envVars.Keys
    ensures |envProcess| > 0 ==> env[ProcessEnvKey] == envProcess
    ensures |envProcess| == 0 ==> env == envVars
  {
    if |envProcess| > 0 then envVars[ProcessEnvKey := envProcess] else envVars
  }

  /** The two labels every deployed service carries. */
  function LabelsFor(name: string): (labels: map<string, string>)
    ensures labels.Keys == {FaasFunctionLabel, PullImageLabel}
    ensures labels[FaasFunctionLabel] == name && labels[PullImageLabel] == "always"
  {
    map[FaasFunctionLabel := name, PullImageLabel := "always"]
  }

  /**
   * The service spec a deploy request becomes: named after the function,
   * scale 1, the request's image, environment and the two labels; every
   * other field keeps its zero value.
   */
  function SpecFor(request: CreateFunctionRequest): (spec: Service)
    ensures spec.name == request.service && spec.scale == 1
    ensures spec.id == "" && spec.stackId == "" && !spec.startOnCreate && spec.state == ""
    ensures spec.launchConfig.Some?
    ensures spec.launchConfig.value.image == request.image && spec.launchConfig.value.imageUuid == ""
    ensures spec.launchConfig.value.environment == EnvironmentFor(request.envVars, request.envProcess)
    ensures spec.launchConfig.value.labels == LabelsFor(request.service)
    ensures spec.launchConfig.value.restartPolicy == map[]
  {
    var launchConfig := LaunchConfig(
      EnvironmentFor(request.envVars, request.envProcess),
      LabelsFor(request.service),
      map[],
      "",
      request.image);
    Service("", "", false, request.service, 1, Some(launchConfig), "")
  }

  /** Builds the spec step by step: the environment is copied entry by entry, then the entry process and labels are set. */
  method MakeServiceSpec(request: CreateFunctionRequest) returns (spec: Service)
    ensures spec == SpecFor(request)
  {
    var envVars: map<string, string> := map[];
    var pending := request.envVars.Keys;
    while pending != {}
      invariant pending <= request.envVars.Keys
      invariant envVars == map k | k in request.envVars && k !in pending :: request.envVars[k]
      decreases pending
    {
      var k :| k in pending;
      envVars := envVars[k := request.envVars[k]];
      pending := pending - {k};
    }
    assert envVars == request.envVars;

    if |request.envProcess| > 0 {
      envVars := envVars[ProcessEnvKey := request.envProcess];
    }

    var labels: map<string, string> := map[];
    labels := labels[FaasFunctionLabel := request.service];
    labels := labels[PullImageLabel := "always"];

    var launchConfig := LaunchConfig(envVars, labels, map[], "", request.image);
    spec := Service("", "", false, request.service, 1, Some(launchConfig), "");
  }

  /**
   * The deploy handler. An undecodable body or an invalid name is answered
   * 400 without contacting the orchestrator; otherwise the spec is created
   * and a create error is answered 500 with its text, success 202.
   */
  method DeployHandler(
    client: BridgeClient, w: ResponseWriter, r: Request,
    decode: string -> Option<CreateFunctionRequest>)
    requires r.body.Some?
    requires w.Untouched()
    modifies client, w
    ensures decode(r.body.value).None? ==>
      w.Status() == StatusBadRequest && w.body == [] && client.calls == old(client.calls)
    ensures var decoded := decode(r.body.value);
      decoded.Some? && ValidateDeployRequest(decoded.value).Some? ==>
        && w.Status() == StatusBadRequest
        && w.body == InvalidNameMessage(decoded.value.service)
        && client.calls == old(client.calls)
    ensures var decoded := decode(r.body.value);
      decoded.Some? && ValidateDeployRequest(decoded.value).None? ==>
        var spec := SpecFor(decoded.value);
        && client.calls == old(client.calls) + [CreateCall(spec)]
        && (client.createAnswer(spec).Err? ==>
              w.Status() == StatusInternalServerError && w.body == client.createAnswer(spec).error)
        && (client.createAnswer(spec).Ok? ==> w.Status() == StatusAccepted && w.body == [])
  {
    var request := decode(r.body.value);
    if request.None? {
      w.WriteHeader(StatusBadRequest);
      return;
    }

    var err := ValidateDeployRequest(request.value);
    if err.Some? {
      w.WriteHeader(StatusBadRequest);
      w.Write(err.value);
      return;
    }

    var serviceSpec := MakeServiceSpec(request.value);

    var created := client.CreateService(serviceSpec);
    if created.Err? {
      w.WriteHeader(StatusInternalServerError);
      w.Write(created.error);
      return;
    }

    w.WriteHeader(StatusAccepted);
  }
}

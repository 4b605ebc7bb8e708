/**
 * The orchestrator's service record and its launch configuration
 * (rancher/service.go), together with the activity predicate.
 */
module Services {
  import opened Wrappers

  /** Go's `uint64`: the type of a service's scale and of a function's replica count. */
  newtype uint64 = x: int | 0 <= x < 0x1_0000_0000_0000_0000

  /** How a service's containers are started. */
  datatype LaunchConfig = LaunchConfig(
    environment: map<string, string>,
    labels: map<string, string>,
    restartPolicy: map<string, string>,
    imageUuid: string,
    // The image reference the deploy handler writes into a new spec; the
    // orchestrator client library's launch config carries it beside imageUuid.
    image: string)

  /**
   * An orchestrator service. The launch configuration is a pointer in the
   * source, so it may be absent (nil).
   */
  datatype Service = Service(
    id: string,
    stackId: string,
    startOnCreate: bool,
    name: string,
    scale: uint64,
    launchConfig: Option<LaunchConfig>,
    state: string)

  /** The only lifecycle state the orchestrator reports for a ready service. */
  const ActiveState: string := "active"

  /** Whether the service is active: its state is exactly the literal "active". */
  predicate IsActive(s: Service)
    ensures IsActive(s) <==> s.state == "active"
  {
    s.state == ActiveState
  }

  /** The activity test reads the state and nothing else. */
  lemma IsActiveOnlyReadsState(s: Service, t: Service)
    requires s.state == t.state
    ensures IsActive(s) <==> IsActive(t)
  {
  }

  /** The comparison is exact: a service that is still "activating", or "Active", is not active. */
  lemma ActivatingIsNotActive(s: Service)
    requires s.state == "activating" || s.state == "Active"
    ensures !IsActive(s)
  {
  }
}

/** get_pod_status: what one read of a pod tells the controller. */
module Observation {
  import opened Wrappers
  import opened Api

  /** What the status read reports: the phase, and whether the pod is ready. */
  datatype PodStatus = PodStatus(phase: Phase, ready: bool)

  /** The container statuses, empty when the server reports none. */
  function ContainerStatuses(obs: PodObservation): seq<ContainerStatus> {
    if obs.containerStatuses.Some? then obs.containerStatuses.value else []
  }

  ghost predicate AllContainersReady(obs: PodObservation) {
    forall i :: 0 <= i < |ContainerStatuses(obs)| ==> ContainerStatuses(obs)[i].ready
  }

  /** Every container is ready (true when there are none). */
  function AllReady(cs: seq<ContainerStatus>): (r: bool)
    ensures r <==> forall i :: 0 <= i < |cs| ==> cs[i].ready
  {
    if cs == [] then true else cs[0].ready && AllReady(cs[1..])
  }

  function GetPodStatus(read: RawRead): (r: Result<PodStatus, ApiError>)
    ensures read.Err? && read.error.status == NotFoundStatus ==> r == Ok(PodStatus(NotFound, false))
    ensures read.Err? && read.error.status != NotFoundStatus ==> r == Err(read.error)
    ensures read.Ok? ==> r.Ok? && r.value.phase == read.value.phase
    ensures read.Ok? ==> (r.value.ready <==> AllContainersReady(read.value))
    ensures read.Ok? && ContainerStatuses(read.value) == [] ==> r.value.ready
    ensures r.Err? ==> r.error.status != NotFoundStatus
  {
    match read
    case Ok(obs) => Ok(PodStatus(obs.phase, AllReady(ContainerStatuses(obs))))
    case Err(e) => if e.status == NotFoundStatus then Ok(PodStatus(NotFound, false)) else Err(e)
  }
}

/** The abstract cluster gateway that replaces the Kubernetes client. The
    cluster is a map from pod key to the pod's observed status, plus the log of
    the calls that can change it. A call either succeeds, fails because of
    the map (409 when creating a pod that exists, 404 when reading or deleting
    one that does not), or fails with an injected `fault`, which stands for
    every other way the API server can refuse a request. */
module Api {
  import opened Wrappers
  import opened PodBuilder

  const NotFoundStatus := 404
  const ConflictStatus := 409

  /** An API exception: its HTTP status and its printed text. */
  datatype ApiError = ApiError(status: int, text: string)

  const NotFoundError := ApiError(NotFoundStatus, "(404) Reason: Not Found")
  const ConflictError := ApiError(ConflictStatus, "(409) Reason: Conflict")

  /** The phases the API server reports for a pod, and the ones the controller
      writes into the resource status (NotFound, Creating, Exists, Error). */
  datatype Phase = Pending | Running | Succeeded | Failed | Unknown | NotFound | Creating | Exists | Error

  datatype ContainerStatus = ContainerStatus(name: string, ready: bool)

  /** A pod's reported status: its phase and its container statuses, which the server may omit. */
  datatype PodObservation = PodObservation(phase: Phase, containerStatuses: Option<seq<ContainerStatus>>)

  /** What one read of a pod returns. */
  type RawRead = Result<PodObservation, ApiError>

  /** The status of a pod the server has just accepted. */
  const NewPodObservation := PodObservation(Pending, None)

  datatype PodKey = PodKey(namespace: string, name: string)

  datatype Request = CreatePodRequest(key: PodKey) | DeletePodRequest(key: PodKey)

  function CreateError(pods: map<PodKey, PodObservation>, key: PodKey, fault: Option<ApiError>): Option<ApiError> {
    if fault.Some? then fault
    else if key in pods then Some(ConflictError)
    else None
  }

  function DeleteError(pods: map<PodKey, PodObservation>, key: PodKey, fault: Option<ApiError>): Option<ApiError> {
    if fault.Some? then fault
    else if key !in pods then Some(NotFoundError)
    else None
  }

  class Cluster {
    var pods: map<PodKey, PodObservation>
    /** Every create and delete call made, in order. */
    var requests: seq<Request>

    constructor (initial: map<PodKey, PodObservation>)
      ensures pods == initial && requests == []
    {
      pods := initial;
      requests := [];
    }

    /** read_namespaced_pod */
    function ReadNamespacedPod(name: string, namespace: string, fault: Option<ApiError>): (r: RawRead)
      reads this
      ensures fault.Some? ==> r == Err(fault.value)
      ensures fault.None? ==> (r.Ok? <==> PodKey(namespace, name) in pods)
      ensures fault.None? && r.Ok? ==> r.value == pods[PodKey(namespace, name)]
      ensures fault.None? && r.Err? ==> r.error == NotFoundError
    {
      var key := PodKey(namespace, name);
      if fault.Some? then Err(fault.value)
      else if key in pods then Ok(pods[key])
      else Err(NotFoundError)
    }

    /** create_namespaced_pod: on success the server returns the created pod. */
    method CreateNamespacedPod(namespace: string, body: Pod, fault: Option<ApiError>) returns (r: Result<Pod, ApiError>)
      modifies this
      ensures var key := PodKey(namespace, body.metadata.name);
        var err := CreateError(old(pods), key, fault);
        && requests == old(requests) + [CreatePodRequest(key)]
        && r == (if err.Some? then Err(err.value) else Ok(body))
        && pods == (if err.Some? then old(pods) else old(pods)[key := NewPodObservation])
    {
      var key := PodKey(namespace, body.metadata.name);
      requests := requests + [CreatePodRequest(key)];
      var err := CreateError(pods, key, fault);
      if err.Some? {
        r := Err(err.value);
      } else {
        pods := pods[key := NewPodObservation];
        r := Ok(body);
      }
    }

    /** delete_namespaced_pod */
    method DeleteNamespacedPod(name: string, namespace: string, fault: Option<ApiError>) returns (r: Option<ApiError>)
      modifies this
      ensures var key := PodKey(namespace, name);
        && requests == old(requests) + [DeletePodRequest(key)]
        && r == DeleteError(old(pods), key, fault)
        && pods == (if r.Some? then old(pods) else old(pods) - {key})
    {
      var key := PodKey(namespace, name);
      requests := requests + [DeletePodRequest(key)];
      r := DeleteError(pods, key, fault);
      if r.None? {
        pods := pods - {key};
      }
    }
  }
}

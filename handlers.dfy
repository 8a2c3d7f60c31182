/** The create, update and delete handlers of the OllamaModel resource. Each
    handler starts from an empty status patch and fills it in step by step;
    the cluster is the gateway passed in, and every gateway call takes the
    fault it may fail with. */
module Handlers {
  import opened Wrappers
  import opened PodBuilder
  import opened Api
  import opened Observation
  import opened Poller

  /** The timeout the create handler waits for the pod with (the poller's default). */
  const PodReadyTimeout := 300

  /** The part of the resource's spec the handlers read: the model name, which may be missing. */
  datatype ModelSpec = ModelSpec(modelName: Option<string>)

  /** The status patch: the status keys a handler has written, with their values. */
  datatype StatusPatch = StatusPatch(
    phase: Option<Phase>,
    ready: Option<bool>,
    podName: Option<string>,
    model: Option<string>,
    error: Option<string>)

  const EmptyPatch := StatusPatch(None, None, None, None, None)

  /** How a handler ends: it returns, raises a permanent error (no retry), or
      re-raises an API error. */
  datatype HandlerOutcome = Done | Permanent(message: string) | Raised(error: ApiError)

  const MissingModelMessage := "modelName must be specified in spec"
  const TimeoutMessage := "Timeout waiting for Ollama pod to be ready"

  function CreatePodFailedMessage(e: ApiError): string {
    "Failed to create pod: " + e.text
  }

  function CreateFailedMessage(reason: string): string {
    "Failed to create Ollama model: " + reason
  }

  /** The create handler goes on only when the model name is present and not empty. */
  predicate HasModelName(spec: ModelSpec) {
    spec.modelName.Some? && spec.modelName.value != ""
  }

  function PodKeyOf(name: string, namespace: string): PodKey {
    PodKey(namespace, PodName(name))
  }

  /** The patch every failed create ends with: phase Error and the reason. */
  function ErrorPatch(patch: StatusPatch, reason: string): StatusPatch {
    patch.(phase := Some(Error), error := Some(reason))
  }

  /** create_fn. `createFault` and `deleteFault` are how the create and the
      cleanup delete may fail; `observe` answers the poller's reads. */
  method OnCreate(api: Cluster, spec: ModelSpec, name: string, namespace: string,
                  createFault: Option<ApiError>, observe: nat -> RawRead, deleteFault: Option<ApiError>)
    returns (patch: StatusPatch, outcome: HandlerOutcome, polls: nat)
    modifies api
    // The create handler never re-raises an API error, and it fails exactly when it writes phase Error.
    ensures !outcome.Raised?
    ensures outcome.Permanent? <==> patch.phase == Some(Error)
    ensures outcome.Permanent? ==> patch.error.Some? && outcome.message == CreateFailedMessage(patch.error.value)
    // A missing or empty modelName: no call at all.
    ensures !HasModelName(spec) ==>
      && api.pods == old(api.pods) && api.requests == old(api.requests) && polls == 0
      && patch == ErrorPatch(EmptyPatch, MissingModelMessage)
    ensures HasModelName(spec) ==>
      var key := PodKeyOf(name, namespace);
      var modelName := spec.modelName.value;
      var createError := CreateError(old(api.pods), key, createFault);
      var trace := Poll(observe, PodReadyTimeout);
      // 409: the pod exists already; nothing else happens.
      && (createError.Some? && createError.value.status == ConflictStatus ==>
            && patch == EmptyPatch.(phase := Some(Exists)) && outcome == Done && polls == 0
            && api.pods == old(api.pods) && api.requests == old(api.requests) + [CreatePodRequest(key)])
      // Any other create error is permanent.
      && (createError.Some? && createError.value.status != ConflictStatus ==>
            && patch == ErrorPatch(EmptyPatch, CreatePodFailedMessage(createError.value)) && polls == 0
            && api.pods == old(api.pods) && api.requests == old(api.requests) + [CreatePodRequest(key)])
      // Created: the pod is polled for.
      && (createError.None? ==>
            var created := EmptyPatch.(podName := Some(PodName(name)), model := Some(modelName));
            && key !in old(api.pods)
            && polls == trace.polls
            && (trace.result.Ok? && trace.result.value ==>
                  && patch == created.(phase := Some(Running), ready := Some(true)) && outcome == Done
                  && api.pods == old(api.pods)[key := NewPodObservation]
                  && api.requests == old(api.requests) + [CreatePodRequest(key)])
            // Not ready in time: the pod is deleted, whatever the delete returns.
            && (trace.result.Ok? && !trace.result.value ==>
                  && patch == ErrorPatch(created, TimeoutMessage)
                  && api.requests == old(api.requests) + [CreatePodRequest(key), DeletePodRequest(key)]
                  && (deleteFault.None? ==> api.pods == old(api.pods) && key !in api.pods)
                  && (deleteFault.Some? ==> api.pods == old(api.pods)[key := NewPodObservation]))
            // A read error during the poll: reported, and the pod is left in place.
            && (trace.result.Err? ==>
                  && patch == ErrorPatch(created, trace.result.error.text)
                  && api.pods == old(api.pods)[key := NewPodObservation]
                  && api.requests == old(api.requests) + [CreatePodRequest(key)]))
  {
    patch, outcome, polls := EmptyPatch, Done, 0;
    // The message of the error the handler-wide catch receives, if any.
    var failure: Option<string> := None;
    if !HasModelName(spec) {
      failure := Some(MissingModelMessage);
    } else {
      var modelName := spec.modelName.value;
      var pod := CreateOllamaPod(name, namespace, modelName);
      var created := api.CreateNamespacedPod(namespace, pod, createFault);
      if created.Err? {
        if created.error.status == ConflictStatus {
          patch := patch.(phase := Some(Exists));
          return;
        }
        failure := Some(CreatePodFailedMessage(created.error));
      } else {
        patch := patch.(phase := Some(Creating));
        patch := patch.(podName := Some(created.value.metadata.name));
        patch := patch.(model := Some(modelName));
        patch, failure, polls := AwaitCreatedPod(api, patch, pod.metadata.name, namespace, observe, deleteFault);
      }
    }
    if failure.Some? {
      patch := ErrorPatch(patch, failure.value);
      outcome := Permanent(CreateFailedMessage(failure.value));
    }
  }

  /** The part of create_fn after the pod was accepted: wait for it to become
      ready and, if it does not in time, delete it. `failure` is the message of
      the error raised, if any. */
  method AwaitCreatedPod(api: Cluster, patch0: StatusPatch, podName: string, namespace: string,
                         observe: nat -> RawRead, deleteFault: Option<ApiError>)
    returns (patch: StatusPatch, failure: Option<string>, polls: nat)
    modifies api
    ensures var key := PodKey(namespace, podName);
      var trace := Poll(observe, PodReadyTimeout);
      && polls == trace.polls
      && (trace.result.Ok? && trace.result.value ==>
            && patch == patch0.(phase := Some(Running), ready := Some(true)) && failure.None?
            && api.pods == old(api.pods) && api.requests == old(api.requests))
      && (trace.result.Ok? && !trace.result.value ==>
            && patch == patch0.(phase := Some(Failed)) && failure == Some(TimeoutMessage)
            && api.requests == old(api.requests) + [DeletePodRequest(key)]
            && api.pods == (if DeleteError(old(api.pods), key, deleteFault).None? then old(api.pods) - {key} else old(api.pods)))
      && (trace.result.Err? ==>
            && patch == patch0 && failure == Some(trace.result.error.text)
            && api.pods == old(api.pods) && api.requests == old(api.requests))
  {
    patch, failure := patch0, None;
    var ready, n, _ := WaitForPodReady(observe, PodReadyTimeout);
    polls := n;
    if ready.Err? {
      failure := Some(ready.error.text);
    } else if !ready.value {
      // Best-effort cleanup: any API error from the delete is swallowed.
      var _ := api.DeleteNamespacedPod(podName, namespace, deleteFault);
      patch := patch.(phase := Some(Failed));
      failure := Some(TimeoutMessage);
    } else {
      patch := patch.(phase := Some(Running));
      patch := patch.(ready := Some(true));
    }
  }

  /** update_fn: a status refresh that never raises. `readFault` is how the
      read may fail. */
  method OnUpdate(api: Cluster, name: string, namespace: string, readFault: Option<ApiError>) returns (patch: StatusPatch)
    ensures var key := PodKeyOf(name, namespace);
      && (readFault.None? && key in api.pods ==>
            && patch.phase == Some(api.pods[key].phase)
            && patch.ready.Some? && (patch.ready.value <==> AllContainersReady(api.pods[key]))
            && patch == EmptyPatch.(phase := patch.phase, ready := patch.ready))
      && ((readFault.None? && key !in api.pods) || (readFault.Some? && readFault.value.status == NotFoundStatus) ==>
            patch == EmptyPatch.(phase := Some(NotFound), ready := Some(false)))
      && (readFault.Some? && readFault.value.status != NotFoundStatus ==>
            patch == ErrorPatch(EmptyPatch, readFault.value.text))
  {
    patch := EmptyPatch;
    var podName := PodName(name);
    var current := GetPodStatus(api.ReadNamespacedPod(podName, namespace, readFault));
    if current.Ok? {
      patch := patch.(phase := Some(current.value.phase));
      patch := patch.(ready := Some(current.value.ready));
    } else {
      patch := ErrorPatch(patch, current.error.text);
    }
  }

  /** delete_fn: a 404 counts as success; any other delete error is re-raised. */
  method OnDelete(api: Cluster, name: string, namespace: string, fault: Option<ApiError>) returns (outcome: HandlerOutcome)
    modifies api
    ensures var key := PodKeyOf(name, namespace);
      && api.requests == old(api.requests) + [DeletePodRequest(key)]
      && (fault.None? ==> outcome == Done && api.pods == old(api.pods) - {key})
      && (fault.Some? ==> api.pods == old(api.pods))
      && (fault.Some? && fault.value.status == NotFoundStatus ==> outcome == Done)
      && (fault.Some? && fault.value.status != NotFoundStatus ==> outcome == Raised(fault.value))
  {
    var podName := PodName(name);
    var err := api.DeleteNamespacedPod(podName, namespace, fault);
    if err.Some? && err.value.status != NotFoundStatus {
      return Raised(err.value);
    }
    outcome := Done;
  }
}

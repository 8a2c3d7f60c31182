/** Calls of the handlers on a cluster built for the purpose, showing what
    their contracts promise callers: the end-to-end create, idempotent create
    and repeated delete. */
module Scenarios {
  import opened Wrappers
  import opened PodBuilder
  import opened Api
  import opened Observation
  import opened Backoff
  import opened Poller
  import opened Handlers

  /** Instance "demo" asks for "llama3:8b"; the first read finds no pod yet, the
      second a pending one, the third a running pod whose container is ready. */
  method DemoCreate() returns (patch: StatusPatch, outcome: HandlerOutcome, polls: nat, pods: map<PodKey, PodObservation>)
    ensures patch == StatusPatch(Some(Running), Some(true), Some("ollama-demo"), Some("llama3:8b"), None)
    ensures outcome == Done && polls == 3
    ensures pods == map[PodKey("default", "ollama-demo") := NewPodObservation]
  {
    var api := new Cluster(map[]);
    var observe: nat -> RawRead := k =>
      if k == 0 then Err(NotFoundError)
      else if k == 1 then Ok(NewPodObservation)
      else Ok(PodObservation(Running, Some([ContainerStatus("ollama", true)])));
    assert Continues(observe, 0) && Continues(observe, 1);
    assert ElapsedAfter(2) == 3;
    PollStopsAtFirstDecisiveRead(observe, PodReadyTimeout, 2);
    assert PodName("demo") == "ollama-demo";
    patch, outcome, polls := OnCreate(api, ModelSpec(Some("llama3:8b")), "demo", "default", None, observe, None);
    pods := api.pods;
  }

  /** Creating the same instance a second time, after a first create that
      finished, ends in phase Exists and leaves the one pod in place. */
  method RepeatedCreate(modelName: string, name: string, namespace: string, observe: nat -> RawRead)
    returns (first: HandlerOutcome, second: StatusPatch, secondOutcome: HandlerOutcome, pods: map<PodKey, PodObservation>)
    requires modelName != ""
    ensures first == Done ==>
      && second == EmptyPatch.(phase := Some(Exists)) && secondOutcome == Done
      && pods == map[PodKeyOf(name, namespace) := NewPodObservation]
  {
    var api := new Cluster(map[]);
    var spec := ModelSpec(Some(modelName));
    var firstPatch, firstPolls;
    firstPatch, first, firstPolls := OnCreate(api, spec, name, namespace, None, observe, None);
    var key := PodKeyOf(name, namespace);
    assert HasModelName(spec) && CreateError(map[], key, None).None?;
    var trace := Poll(observe, PodReadyTimeout);
    if trace.result.Err? || trace.result == Ok(false) {
      assert firstPatch.phase == Some(Error);
    }
    if first == Done {
      assert trace.result.Ok? && trace.result.value;
      assert api.pods == map[][key := NewPodObservation];
    }
    var secondPolls;
    second, secondOutcome, secondPolls := OnCreate(api, spec, name, namespace, None, observe, None);
    pods := api.pods;
  }

  /** Deleting an instance twice: neither delete raises, whether or not the pod
      existed, and the pod is gone afterwards. */
  method RepeatedDelete(initial: map<PodKey, PodObservation>, name: string, namespace: string)
    returns (first: HandlerOutcome, second: HandlerOutcome, pods: map<PodKey, PodObservation>)
    ensures first == Done && second == Done
    ensures pods == initial - {PodKeyOf(name, namespace)}
  {
    var api := new Cluster(initial);
    first := OnDelete(api, name, namespace, None);
    second := OnDelete(api, name, namespace, None);
    pods := api.pods;
  }
}

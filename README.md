# Ollama model operator: a Dafny model of its controller

The operator watches `OllamaModel` custom resources (group `example.com`,
version `v1`). For each one it runs a pod that serves Ollama and pulls the
model named in the resource's `spec.modelName`. This project models the
operator's controller in Dafny and proves properties of that model:

- the pod manifest builder (`PodBuilder`);
- the pod status read (`Observation`);
- the readiness poller with its exponential backoff (`Backoff`, `Poller`);
- the create, update and delete handlers (`Handlers`).

The Kubernetes API becomes one gateway object, `Api.Cluster`:

- It holds the pods that exist, keyed by namespace and name.
- It logs every create and delete request it receives.
- Every call takes an optional `ApiError` that it fails with, so each error
  path of the handlers can be stated.

The poller's successive pod reads are a stream `observe: nat -> RawRead`: read
number `k` returns `observe(k)`. The wall clock is integer ticks of one second,
and a read takes no time.

`Scenarios` calls the handlers on a newly built cluster. Its contracts show three things:

- the end-to-end create of instance `demo`;
- a second create of the same instance ends in phase `Exists`;
- a repeated delete never raises.

Three behaviours of the code are easy to misread, and the model keeps each:

- **Final phase of a failed create.** When the pod is not ready in time, the
  create handler writes phase `Failed` and raises a permanent error. Its own
  handler-wide catch then overwrites the phase with `Error` and stores the
  message. So the phase a failed create leaves is `Error`, and
  `Handlers.AwaitCreatedPod` writes the intermediate `Failed`.
- **No cleanup after a read error.** A read error other than 404 during the
  poll propagates out of the poller. It skips the cleanup delete, so that pod
  stays in the cluster.
- **Loop condition.** The poll loop runs while the elapsed time is less than
  the timeout. A read never starts at or after the timeout, but the last sleep
  may carry the clock past it by less than one maximal backoff.

## Model

| member | source | states |
|---|---|---|
| PodBuilder.CreateOllamaPod | controller.py:21-92 | The pod is named `ollama-<name>` in the given namespace. Its labels are exactly `app: ollama` and `model: <name>`. It has one container whose start script pulls exactly the requested model. It is well formed: every volume mount names a volume the pod declares, and both health probes target a port the container exposes. It runs as root, with user, group and filesystem group 0 and running as non-root disallowed. Its container uses image `ollama/ollama:latest`, serves only port 11434, mounts the one empty-dir volume `ollama-data` at `/root/.ollama`, requests 500m CPU and 1Gi memory with limits 2 and 4Gi, and probes `/api/version` on port 11434 after 5 s every 10 s (readiness) and after 15 s every 20 s (liveness). |
| PodBuilder.ParsePullCommand | controller.py:44-50 | Reading the model name back out of the container's start script gives the requested model, for every model name. |
| PodBuilder.PodNameInjective | controller.py:25 | Two instance names give the same pod name only if they are equal. |
| PodBuilder.PodIdentity | controller.py:24-30 | Two instances in one namespace get the same pod name exactly when their names are equal. The same name gives the same metadata whatever model is asked for. |
| Api.Cluster.ReadNamespacedPod | controller.py:98 | A read fails with the injected error when there is one. It fails with a 404 when the pod is absent. Otherwise it returns the stored pod status. |
| Api.Cluster.CreateNamespacedPod | controller.py:145-148 | The create is logged. It fails with the injected error, or with a 409 when the pod exists, and then the pods are unchanged. On success it returns the body and stores a new, pending pod under the body's key. |
| Api.Cluster.DeleteNamespacedPod | controller.py:199-202 | The delete is logged. It fails with the injected error, or with a 404 when the pod is absent, and then the pods are unchanged. On success the pod is removed and nothing else changes. |
| Observation.AllReady | controller.py:101-104 | True exactly when every container status in the list is ready, so an empty list counts as ready. |
| Observation.GetPodStatus | controller.py:95-109 | A 404 becomes phase `NotFound`, not ready. Any other error is re-raised unchanged, so an error never has status 404. A pod read keeps its phase, and ready holds exactly when all of its container statuses are ready. A pod with no container statuses counts as ready. |
| Backoff.SleepTicks | controller.py:130 | A sleep lasts at least 1 tick and at most the 32-tick cap. |
| Backoff.BackoffSchedule | controller.py:113-115 | The k-th sleep is 2^k up to the cap and 32 after it. The first six sleeps are 1, 2, 4, 8, 16, 32. |
| Backoff.ElapsedClosedForm | controller.py:130-131 | The time slept in the first k rounds is 2^k - 1 for k <= 5. After that it grows by 32 per round: 31 + 32(k - 5). |
| Backoff.ElapsedIncreases | controller.py:117-131 | The elapsed time strictly increases with the number of rounds, by at least one tick per round. |
| Poller.WaitForPodReady | controller.py:111-133 | The loop returns what the recursive specification `Poll` returns: the verdict (true, false or a re-raised error), the number of reads made and the ticks slept. |
| Poller.PollFromStartsInTime | controller.py:117 | No read starts at or after the timeout. The elapsed time at the end is the time slept before the last read, or after it. |
| Poller.PollFromShape | controller.py:117-133 | Every poll ends one of two ways. It times out: the result is false, the clock is at or past the timeout, and every read left the poll waiting. Or its last read settled it, and every read before that left it waiting. |
| Poller.PollFromStopsAt | controller.py:119-124 | Counting from any read onwards, the poll stops right after the first read that settles it, provided that read starts in time. |
| Poller.PollStopsAtFirstDecisiveRead | controller.py:119-124 | The poll stops at the first read that settles it, if that read starts before the timeout. It returns that read's verdict after exactly that many reads, without a further sleep. |
| Poller.PollReadyIff | controller.py:120-121 | The poll returns true if and only if some read made in time, after reads that all left it waiting, shows the pod Running with every container ready. That read is then the last one. |
| Poller.PollFailsFast | controller.py:123-128 | A read that shows `Failed` or `Unknown` ends the poll with false at once. A read error other than 404 is re-raised at once. A 404 only keeps the poll waiting. |
| Poller.PollTimeBound | controller.py:117-133 | No read starts at or after the timeout. A poll whose clock reaches the timeout returns false. A timeout of zero or less makes no read and returns false. A positive timeout makes at least one read, and the clock ends less than one maximal sleep past the timeout. |
| Poller.DefaultTimeoutBudget | controller.py:111-133 | With the default 300-tick timeout, a poll makes at most 14 reads and ends by tick 319. |
| Handlers.OnCreate | controller.py:136-179 | The create handler never re-raises an API error. It fails permanently exactly when it writes phase `Error`, and the failure message wraps the error text. With the model name missing or empty, it makes no call. A 409 writes phase `Exists` and returns. Another create error fails with that error's text. Once the pod is created, what happens next follows the poll. A ready pod gives phase `Running`, ready. A timeout deletes the pod and fails, and the pod is gone unless that delete failed. A read error fails and leaves the pod. |
| Handlers.AwaitCreatedPod | controller.py:161-173 | After the pod is created: a ready pod gives `Running`, ready. A timeout issues one delete, swallows its error, writes `Failed` and reports the timeout message. A read error is reported with the pods and the request log unchanged. |
| Handlers.OnUpdate | controller.py:182-192 | The update handler writes the pod's own phase and its all-containers-ready flag. An absent pod or a 404 gives `NotFound`, not ready. Any other error gives phase `Error` and the error's text. It never raises. |
| Handlers.OnDelete | controller.py:195-208 | The delete handler issues exactly one delete request. A successful delete or a 404 returns normally. Any other error is re-raised and leaves the pods unchanged. Without an injected fault the pod is gone afterwards. |
| Scenarios.DemoCreate | controller.py:136-179 | Instance `demo` asking for `llama3:8b` is read as missing, then pending, then running and ready. The handler ends with phase `Running`, ready, pod `ollama-demo` and model `llama3:8b`, and no error. It used 3 reads, and exactly that one pod exists. |
| Scenarios.RepeatedCreate | controller.py:154-158 | After a create that finished, creating the same instance again writes only phase `Exists`, returns normally, and leaves the one pod. |
| Scenarios.RepeatedDelete | controller.py:198-208 | Deleting an instance twice never raises, whether or not its pod existed. Afterwards the pod is gone and every other pod is untouched. |

## Left out

- The kopf framework: handler registration, the `spec`/`patch`/`logger`
  arguments and the retry policy. These are modelled as the handlers'
  parameters, the returned `StatusPatch` and `HandlerOutcome`.
- In-cluster configuration and the module-wide API client. The client is the
  `Api.Cluster` parameter.
- Floating-point wall-clock time and `sleep`. Time is integer ticks, and a read
  takes no time.
- Logging, which changes no state the handlers return.
- The meaning of the shell command, the resource quantities and the probe
  timings. They are stored as plain values: `PodBuilder.CreateOllamaPod` states
  which values the pod carries, but nothing models what Kubernetes or the
  shell does with them.
- Errors other than API errors: client or network exceptions, a pod with no
  phase at all, and a model name that is present but neither a string nor
  empty.
- Api.Cluster.CreateNamespacedPod: creates are never rejected for reasons other
  than the injected fault or a name clash, such as manifest validation.
- Poller.WaitForPodReady: the reads come from a supplied stream rather than the
  cluster's stored pods, so a status change during a poll is not written back
  to the cluster.
- Api.Cluster.ReadNamespacedPod: reads are not logged and change nothing.
- The printed form of an API error: it is modelled as the error's text, and the
  handlers' messages prepend their fixed prefixes to it.
- Handlers.OnCreate: the status patch is returned as a value and is not merged
  into the stored resource, which is part of the framework.

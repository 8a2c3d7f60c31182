/** The pod descriptor that serves one OllamaModel instance: the container
    starts the Ollama server, pulls the requested model and keeps running.
    Resource quantities, probe settings and the security context are fixed
    values carried as opaque fields; Kubernetes semantics are not modelled. */
module PodBuilder {
  import opened Wrappers

  datatype ObjectMeta = ObjectMeta(name: string, namespace: string, labels: map<string, string>)
  datatype ContainerPort = ContainerPort(containerPort: int)
  datatype VolumeMount = VolumeMount(name: string, mountPath: string)
  datatype Quantities = Quantities(cpu: string, memory: string)
  datatype Resources = Resources(requests: Quantities, limits: Quantities)
  datatype HttpProbe = HttpProbe(path: string, port: int, initialDelaySeconds: nat, periodSeconds: nat)
  datatype Container = Container(
    name: string,
    image: string,
    ports: seq<ContainerPort>,
    volumeMounts: seq<VolumeMount>,
    command: seq<string>,
    args: seq<string>,
    resources: Resources,
    readinessProbe: HttpProbe,
    livenessProbe: HttpProbe)
  datatype Volume = EmptyDirVolume(name: string)
  datatype SecurityContext = SecurityContext(runAsUser: int, runAsGroup: int, fsGroup: int, runAsNonRoot: bool)
  datatype PodSpec = PodSpec(containers: seq<Container>, volumes: seq<Volume>, securityContext: SecurityContext)
  datatype Pod = Pod(metadata: ObjectMeta, spec: PodSpec)

  const PodNamePrefix := "ollama-"
  const AppName := "ollama"
  const ServePort := 11434
  const DataVolume := "ollama-data"
  const HealthPath := "/api/version"
  const ServerImage := "ollama/ollama:latest"
  /** Where the data volume is mounted: the model store of a server running as root. */
  const ModelStore := "/root/.ollama"
  /** The shell script run by `sh -c`: everything before and after the model name. */
  const PullPrefix := "ollama serve & sleep 5 && ollama pull "
  const PullSuffix := " && wait"

  /** The name of the pod owned by the instance `name`; the update and delete
      handlers derive it the same way. */
  function PodName(name: string): string {
    PodNamePrefix + name
  }

  function PodLabels(name: string): map<string, string> {
    map["app" := AppName, "model" := name]
  }

  function PullCommand(modelName: string): string {
    PullPrefix + modelName + PullSuffix
  }

  /** The model named by a serve-then-pull script, or None if the script has another shape. */
  function ParsePull(script: string): Option<string> {
    if |PullPrefix| + |PullSuffix| <= |script|
       && script[..|PullPrefix|] == PullPrefix
       && script[|script| - |PullSuffix|..] == PullSuffix
    then Some(script[|PullPrefix|..|script| - |PullSuffix|])
    else None
  }

  /** The model a container pulls on startup, read back from its command line. */
  function PulledModel(c: Container): Option<string> {
    if c.command == ["sh", "-c"] && |c.args| == 1 then ParsePull(c.args[0]) else None
  }

  ghost predicate DeclaresVolume(spec: PodSpec, name: string) {
    exists v :: v in spec.volumes && v.name == name
  }

  ghost predicate ExposesPort(c: Container, port: int) {
    ContainerPort(port) in c.ports
  }

  /** Every volume mount names a volume of the pod, and both probes target a
      port the container exposes. */
  ghost predicate WellFormed(pod: Pod) {
    forall c :: c in pod.spec.containers ==>
      && (forall m :: m in c.volumeMounts ==> DeclaresVolume(pod.spec, m.name))
      && ExposesPort(c, c.readinessProbe.port)
      && ExposesPort(c, c.livenessProbe.port)
  }

  ghost predicate RunsAsRoot(pod: Pod) {
    && pod.spec.securityContext.runAsUser == 0
    && pod.spec.securityContext.runAsGroup == 0
    && pod.spec.securityContext.fsGroup == 0
    && !pod.spec.securityContext.runAsNonRoot
  }

  function CreateOllamaPod(name: string, namespace: string, modelName: string): (pod: Pod)
    ensures pod.metadata.name == PodName(name) && pod.metadata.namespace == namespace
    ensures pod.metadata.labels.Keys == {"app", "model"}
    ensures pod.metadata.labels["app"] == AppName && pod.metadata.labels["model"] == name
    ensures |pod.spec.containers| == 1
    ensures PulledModel(pod.spec.containers[0]) == Some(modelName)
    ensures WellFormed(pod) && RunsAsRoot(pod)
    // The server container: its image, its one port, the data volume at the
    // model store, its resource requests and limits, and its probe timings.
    ensures var c := pod.spec.containers[0];
      && c.name == AppName && c.image == ServerImage && c.ports == [ContainerPort(ServePort)]
      && c.volumeMounts == [VolumeMount(DataVolume, ModelStore)]
      && c.resources == Resources(Quantities("500m", "1Gi"), Quantities("2", "4Gi"))
      && c.readinessProbe == HttpProbe(HealthPath, ServePort, 5, 10)
      && c.livenessProbe == HttpProbe(HealthPath, ServePort, 15, 20)
    ensures pod.spec.volumes == [EmptyDirVolume(DataVolume)]
  {
    var probe := (delay: nat, period: nat) => HttpProbe(HealthPath, ServePort, delay, period);
    var container := Container(
      name := AppName,
      image := ServerImage,
      ports := [ContainerPort(ServePort)],
      volumeMounts := [VolumeMount(DataVolume, ModelStore)],
      command := ["sh", "-c"],
      args := [PullCommand(modelName)],
      resources := Resources(Quantities("500m", "1Gi"), Quantities("2", "4Gi")),
      readinessProbe := probe(5, 10),
      livenessProbe := probe(15, 20));
    var spec := PodSpec(
      containers := [container],
      volumes := [EmptyDirVolume(DataVolume)],
      securityContext := SecurityContext(0, 0, 0, false));
    ParsePullCommand(modelName);
    assert spec.volumes[0].name == DataVolume;
    Pod(ObjectMeta(PodName(name), namespace, PodLabels(name)), spec)
  }

  /** The pull script can be read back: it names exactly the requested model. */
  lemma {:induction false} ParsePullCommand(modelName: string)
    ensures ParsePull(PullCommand(modelName)) == Some(modelName)
  {
    var script := PullCommand(modelName);
    assert script[..|PullPrefix|] == PullPrefix;
    assert script[|script| - |PullSuffix|..] == PullSuffix;
    assert script[|PullPrefix|..|script| - |PullSuffix|] == modelName;
  }

  lemma {:induction false} PodNameInjective(a: string, b: string)
    requires PodName(a) == PodName(b)
    ensures a == b
  {
    assert a == PodName(a)[|PodNamePrefix|..];
    assert b == PodName(b)[|PodNamePrefix|..];
  }

  /** Deterministic naming: the pod's identity depends on the instance name and
      namespace only, never on the model, and two instances of one namespace
      never share a pod. */
  lemma PodIdentity(name1: string, name2: string, namespace: string, model1: string, model2: string)
    ensures var p1, p2 := CreateOllamaPod(name1, namespace, model1), CreateOllamaPod(name2, namespace, model2);
      && (p1.metadata.name == p2.metadata.name <==> name1 == name2)
      && (name1 == name2 ==> p1.metadata == p2.metadata)
  {
    if PodName(name1) == PodName(name2) {
      PodNameInjective(name1, name2);
    }
  }
}

/**
 * The Docker client the plugin talks to, reduced to what the plugin sees.
 * The daemon is abstract: every reply is an arbitrary function of the calls
 * this client has already made and of the request, so the model commits to
 * no daemon behaviour. The client records every call it makes in `calls`.
 */
module DockerApi {
  import opened JavaLang

  /** ExecCreateParam */
  datatype ExecParam = User(user: string) | AttachStderr(on: bool) | AttachStdout(on: bool) | Tty(on: bool)

  /** HostConfig as the plugin builds it; None is a setting left unset. */
  datatype HostConfig = HostConfig(
    cpuShares: int,
    memory: Option<int>,
    memorySwap: Option<int>,
    privileged: bool,
    binds: seq<string>)

  /** ContainerConfig as the plugin builds it. */
  datatype ContainerConfig = ContainerConfig(
    image: string,
    attachStderr: bool,
    attachStdout: bool,
    tty: bool,
    cmd: seq<string>,
    workingDir: Option<string>,
    labels: map<string, string>,
    volumes: seq<string>,
    hostConfig: HostConfig)

  /** One entry of listContainers(): only its names matter to the plugin. */
  datatype Container = Container(names: seq<string>)

  /** A call issued on a client, in the order issued. */
  datatype Request =
    | InspectImage(image: string)
    | PullImage(image: string)
    | CreateContainer(config: ContainerConfig)
    | StartContainer(id: string)
    | StopContainer(id: string, secondsToWaitBeforeKilling: int)
    | RemoveContainer(id: string, removeVolumes: bool)
    | ListContainers
    | ExecCreate(containerId: string, command: seq<string>, params: seq<ExecParam>)
    | Close

  /** What a Docker client call may throw: a DockerException (of any kind) or an interrupt. */
  type ClientException = e: Exception | IsDockerException(e) || e.InterruptedException?
    witness DockerException("")

  /** Reply to inspectImage: image info (carrying config().user()), a null reference, or a throw. */
  datatype ImageReply = ImageInfo(user: JString) | NoImageInfo | ImageFailed(error: ClientException)

  /** Reply to a call that returns nothing. */
  datatype Status = Done | Failed(error: ClientException)

  datatype CreateReply = Created(id: string) | CreateFailed(error: ClientException)

  datatype ListReply = Listed(containers: seq<Container>) | ListFailed(error: ClientException)

  datatype ExecReply = ExecCreated(execId: string) | ExecFailed(error: ClientException)

  /** A Docker daemon: each reply depends on the client's earlier calls and the request. */
  datatype Runtime = Runtime(
    inspectImage: (seq<Request>, string) -> ImageReply,
    pull: (seq<Request>, string) -> Status,
    createContainer: (seq<Request>, ContainerConfig) -> CreateReply,
    startContainer: (seq<Request>, string) -> Status,
    stopContainer: (seq<Request>, string, int) -> Status,
    removeContainer: (seq<Request>, string, bool) -> Status,
    listContainers: seq<Request> -> ListReply,
    execCreate: (seq<Request>, string, seq<string>, seq<ExecParam>) -> ExecReply)

  /**
   * What a cloud's connection settings (uri, TLS flag, certificates path)
   * lead to: either building a client throws, or the client talks to `runtime`.
   */
  datatype Endpoint = Endpoint(runtime: Runtime, buildFailure: Option<BuildException>)

  /** What buildDockerClient may throw: its declared DockerCertificateException or an unchecked exception. */
  type BuildException = e: Exception | e.DockerCertificateException? || IsUnchecked(e)
    witness DockerCertificateException

  class DockerClient {
    const runtime: Runtime
    var calls: seq<Request>

    constructor (runtime: Runtime)
      ensures this.runtime == runtime && calls == []
    {
      this.runtime := runtime;
      calls := [];
    }

    method InspectImage(image: string) returns (r: ImageReply)
      modifies this
      ensures calls == old(calls) + [Request.InspectImage(image)]
      ensures r == runtime.inspectImage(old(calls), image)
    {
      r := runtime.inspectImage(calls, image);
      calls := calls + [Request.InspectImage(image)];
    }

    method Pull(image: string) returns (r: Status)
      modifies this
      ensures calls == old(calls) + [Request.PullImage(image)]
      ensures r == runtime.pull(old(calls), image)
    {
      r := runtime.pull(calls, image);
      calls := calls + [Request.PullImage(image)];
    }

    method CreateContainer(config: ContainerConfig) returns (r: CreateReply)
      modifies this
      ensures calls == old(calls) + [Request.CreateContainer(config)]
      ensures r == runtime.createContainer(old(calls), config)
    {
      r := runtime.createContainer(calls, config);
      calls := calls + [Request.CreateContainer(config)];
    }

    method StartContainer(id: string) returns (r: Status)
      modifies this
      ensures calls == old(calls) + [Request.StartContainer(id)]
      ensures r == runtime.startContainer(old(calls), id)
    {
      r := runtime.startContainer(calls, id);
      calls := calls + [Request.StartContainer(id)];
    }

    method StopContainer(id: string, secondsToWaitBeforeKilling: int) returns (r: Status)
      modifies this
      ensures calls == old(calls) + [Request.StopContainer(id, secondsToWaitBeforeKilling)]
      ensures r == runtime.stopContainer(old(calls), id, secondsToWaitBeforeKilling)
    {
      r := runtime.stopContainer(calls, id, secondsToWaitBeforeKilling);
      calls := calls + [Request.StopContainer(id, secondsToWaitBeforeKilling)];
    }

    method RemoveContainer(id: string, removeVolumes: bool) returns (r: Status)
      modifies this
      ensures calls == old(calls) + [Request.RemoveContainer(id, removeVolumes)]
      ensures r == runtime.removeContainer(old(calls), id, removeVolumes)
    {
      r := runtime.removeContainer(calls, id, removeVolumes);
      calls := calls + [Request.RemoveContainer(id, removeVolumes)];
    }

    method ListContainers() returns (r: ListReply)
      modifies this
      ensures calls == old(calls) + [Request.ListContainers]
      ensures r == runtime.listContainers(old(calls))
    {
      r := runtime.listContainers(calls);
      calls := calls + [Request.ListContainers];
    }

    method ExecCreate(containerId: string, command: seq<string>, params: seq<ExecParam>) returns (r: ExecReply)
      modifies this
      ensures calls == old(calls) + [Request.ExecCreate(containerId, command, params)]
      ensures r == runtime.execCreate(old(calls), containerId, command, params)
    {
      r := runtime.execCreate(calls, containerId, command, params);
      calls := calls + [Request.ExecCreate(containerId, command, params)];
    }

    method Close()
      modifies this
      ensures calls == old(calls) + [Request.Close]
    {
      calls := calls + [Request.Close];
    }
  }

  /** Number of Close calls in a trace. */
  function CloseCount(calls: seq<Request>): (n: nat)
    ensures n <= |calls|
    ensures n == 0 <==> Request.Close !in calls
  {
    if calls == [] then 0
    else CloseCount(calls[..|calls| - 1]) + (if calls[|calls| - 1] == Request.Close then 1 else 0)
  }

  lemma {:induction false} CloseCountAppend(a: seq<Request>, b: seq<Request>)
    ensures CloseCount(a + b) == CloseCount(a) + CloseCount(b)
  {
    if b != [] {
      assert (a + b)[..|a + b| - 1] == a + b[..|b| - 1];
      CloseCountAppend(a, b[..|b| - 1]);
    } else {
      assert a + b == a;
    }
  }
}

/**
 * CreateContainerCallable: the provisioning decisions made for one new node
 * (does the image exist, pull or not, resource limits, labels, volumes,
 * create then start, which user the launcher runs as, the node's name).
 */
module CreateContainer {
  import opened JavaLang
  import opened DockerApi
  import Labels
  import opened Image

  /** The DockerImage getters CreateContainerCallable reads, as one record. */
  datatype ImageProfile = ImageProfile(
    name: string,
    labelString: string,
    mode: Mode,
    dockerImageName: string,
    remoteFS: string,
    cpuShares: int,
    memoryLimited: bool,
    memoryLimitMB: int,
    swapLimited: bool,
    swapLimitMB: int,
    privileged: bool,
    pullForced: bool,
    pullDisabled: bool,
    workingDir: JString,
    volumes: JString,
    userOverride: JString)

  /** The arguments CreateContainerCallable passes to the DockerSlave and DockerLauncher it builds. */
  datatype NewNode = NewNode(
    name: string,
    dockerId: string,
    nodeDescription: string,
    remoteFS: string,
    mode: Mode,
    labelString: string,
    execUser: JString)

  /** The client calls one provisioning issued, and how it ended. */
  datatype Run = Run(outcome: Outcome<NewNode>, calls: seq<Request>)

  const BytesPerMB: int := 1024 * 1024

  /**
   * The first inspectImage decides existence: non-null info means present; a
   * null reply or an ImageNotFoundException means absent; any other failure
   * propagates.
   */
  function ImageExists(reply: ImageReply): (r: Outcome<bool>)
    ensures r == Returned(true) <==> reply.ImageInfo?
    ensures r == Returned(false) <==> reply.NoImageInfo? || reply == ImageFailed(ImageNotFoundException)
    ensures r.Threw? <==> reply.ImageFailed? && reply.error != ImageNotFoundException
    ensures r.Threw? ==> r.exception == reply.error
  {
    match reply
    case ImageInfo(_) => Returned(true)
    case NoImageInfo => Returned(false)
    case ImageFailed(e) => if e == ImageNotFoundException then Returned(false) else Threw(e)
  }

  datatype PullAction = SkipPull | DoPull | FailPullDisabled

  function DecidePull(imageExists: bool, pullForced: bool, pullDisabled: bool): (a: PullAction)
    ensures a == DoPull <==> (!imageExists || pullForced) && !pullDisabled
    ensures a == FailPullDisabled <==> (!imageExists || pullForced) && pullDisabled
    ensures a == SkipPull <==> imageExists && !pullForced
  {
    if !imageExists || pullForced then
      if pullDisabled then FailPullDisabled else DoPull
    else SkipPull
  }

  /** The pull decision table, row by row: (image present, pull forced, pull disabled). */
  lemma PullDecisionTable()
    ensures DecidePull(false, false, true) == FailPullDisabled
    ensures DecidePull(false, true, true) == FailPullDisabled
    ensures DecidePull(false, false, false) == DoPull
    ensures DecidePull(false, true, false) == DoPull
    ensures DecidePull(true, true, false) == DoPull
    ensures DecidePull(true, true, true) == FailPullDisabled
    ensures DecidePull(true, false, false) == SkipPull
    ensures DecidePull(true, false, true) == SkipPull
  {
  }

  /** Memory, memory+swap, CPU shares, privilege and binds of the host config. */
  function HostConfigFor(image: ImageProfile): (h: HostConfig)
    ensures h.cpuShares == image.cpuShares && h.privileged == image.privileged
    ensures h.binds == VolumeLines(image.volumes)
  {
    var memory := if image.memoryLimited then Some(image.memoryLimitMB * BytesPerMB) else None;
    var memorySwap :=
      if image.memoryLimited && image.swapLimited then Some(image.swapLimitMB * BytesPerMB + image.memoryLimitMB * BytesPerMB)
      else None;
    HostConfig(image.cpuShares, memory, memorySwap, image.privileged, VolumeLines(image.volumes))
  }

  /** Without a memory limit neither memory nor swap is set, whatever the swap flag says. */
  lemma NoMemoryLimitSetsNothing(image: ImageProfile)
    requires !image.memoryLimited
    ensures HostConfigFor(image).memory.None? && HostConfigFor(image).memorySwap.None?
  {
  }

  /**
   * Memory is set exactly when memory-limited and converts back to the
   * configured MB; memory+swap is set exactly when both flags are on and
   * exceeds memory by the swap MB in bytes.
   */
  lemma MemoryLimitsRoundTrip(image: ImageProfile)
    ensures var h := HostConfigFor(image);
      (h.memory.Some? <==> image.memoryLimited)
      && (h.memorySwap.Some? <==> image.memoryLimited && image.swapLimited)
      && (h.memory.Some? ==> h.memory.value == image.memoryLimitMB * BytesPerMB)
      && (h.memory.Some? ==> h.memory.value / BytesPerMB == image.memoryLimitMB && h.memory.value % BytesPerMB == 0)
      && (h.memorySwap.Some? ==> h.memory.Some? && h.memorySwap.value == image.swapLimitMB * BytesPerMB + h.memory.value)
      && (h.memorySwap.Some? ==> (h.memorySwap.value - h.memory.value) / BytesPerMB == image.swapLimitMB)
  {
    var h := HostConfigFor(image);
    if h.memory.Some? {
      assert h.memory.value == image.memoryLimitMB * BytesPerMB;
    }
    if h.memorySwap.Some? {
      assert h.memorySwap.value - h.memory.value == image.swapLimitMB * BytesPerMB;
    }
  }

  lemma MemoryExample(image: ImageProfile)
    requires image.memoryLimited && image.swapLimited
    requires image.memoryLimitMB == 512 && image.swapLimitMB == 256
    ensures HostConfigFor(image).memory == Some(536870912)
    ensures HostConfigFor(image).memorySwap == Some(805306368)
  {
  }

  /** The working directory is applied only when it is non-null and non-empty. */
  function WorkingDirFor(workingDir: JString): (w: Option<string>)
    ensures w.Some? <==> workingDir.Some? && |workingDir.value| > 0
    ensures w.Some? ==> w.value == workingDir.value
  {
    if workingDir.Some? && |workingDir.value| > 0 then Some(workingDir.value) else None
  }

  /** Bind specs from the volumes text: none for null, otherwise the text as one spec. */
  function VolumeLines(volumes: JString): (lines: seq<string>)
    ensures volumes.None? ==> lines == []
    ensures volumes.Some? ==> lines == [volumes.value]
  {
    if volumes.None? then [] else [volumes.value]
  }

  /** The container configuration CreateContainerCallable submits. */
  function ContainerConfigFor(cloudName: string, image: ImageProfile): (c: ContainerConfig)
    ensures c.image == image.dockerImageName && c.cmd == ["cat"]
    ensures c.attachStderr && c.attachStdout && c.tty
    ensures c.workingDir == WorkingDirFor(image.workingDir)
    ensures c.labels == Labels.ContainerLabels(cloudName, image.name, image.labelString)
    ensures c.volumes == VolumeLines(image.volumes) && c.hostConfig.binds == c.volumes
    ensures c.hostConfig == HostConfigFor(image)
  {
    ContainerConfig(image.dockerImageName, true, true, true, ["cat"], WorkingDirFor(image.workingDir),
      Labels.ContainerLabels(cloudName, image.name, image.labelString),
      VolumeLines(image.volumes), HostConfigFor(image))
  }

  /**
   * The user the launcher runs as: a non-blank override as given (untrimmed),
   * else a non-blank image user trimmed, else null (the image default).
   */
  function ResolveExecUser(userOverride: JString, imageUser: JString): (u: JString)
  {
    if HasText(userOverride) then userOverride
    else if HasText(imageUser) then Some(Trim(imageUser.value))
    else None
  }

  /** The override wins whenever it has text, and is passed on untrimmed. */
  lemma OverrideWins(userOverride: string, imageUser: JString)
    requires HasText(Some(userOverride))
    ensures ResolveExecUser(Some(userOverride), imageUser) == Some(userOverride)
  {
  }

  /** With a blank override the image's user is used, trimmed, when it has text; otherwise no user. */
  lemma ImageUserFallback(userOverride: JString, imageUser: JString)
    requires !HasText(userOverride)
    ensures HasText(imageUser) ==> ResolveExecUser(userOverride, imageUser) == Some(Trim(imageUser.value))
    ensures !HasText(imageUser) ==> ResolveExecUser(userOverride, imageUser) == None
  {
  }

  /** A resolved user is never blank. */
  lemma ResolvedUserHasText(userOverride: JString, imageUser: JString)
    ensures ResolveExecUser(userOverride, imageUser).Some? ==> HasText(ResolveExecUser(userOverride, imageUser))
  {
    if !HasText(userOverride) && HasText(imageUser) {
      var t := Trim(imageUser.value);
      assert !IsTrimmed(t[0]);
    }
  }

  lemma ExecUserExamples()
    ensures ResolveExecUser(Some("deploy"), Some("root")) == Some("deploy")
    ensures ResolveExecUser(Some(""), Some("app")) == Some("app")
    ensures ResolveExecUser(Some(""), Some("")) == None
    ensures ResolveExecUser(None, None) == None
  {
    assert !IsTrimmed("deploy"[0]);
    assert !IsTrimmed("app"[0]) && !IsTrimmed("app"[2]);
    assert TrimStartIndex("app", 0) == 0;
    assert TrimEndIndex("app", 0, 3) == 3;
    assert "app"[0..3] == "app";
  }

  /** `id.substring(0, 12)`: throws on an id shorter than twelve chars. */
  function NodeName(id: string): (r: Outcome<string>)
    ensures r.Returned? <==> |id| >= 12
    ensures r.Returned? ==> |r.value| == 12 && StartsWith(id, r.value)
    ensures r.Threw? ==> r.exception == StringIndexOutOfBoundsException
  {
    if |id| < 12 then Threw(StringIndexOutOfBoundsException) else Returned(id[..12])
  }

  function NodeDescription(cloudName: string, image: ImageProfile): string {
    "Docker container built from image config '" + image.name + "' using docker image '"
    + image.dockerImageName + "' running in the '" + cloudName + "' docker cloud."
  }

  function PullDisabledMessage(cloudName: string, image: ImageProfile): string {
    "Image '" + image.dockerImageName + "' does not exist on Docker cloud '" + cloudName + "' and pull is disabled."
  }

  /** A run preceded by calls already issued. */
  function After(pre: seq<Request>, run: Run): Run
  {
    Run(run.outcome, pre + run.calls)
  }

  /**
   * callWithDocker as a function of the daemon and the client's history h:
   * the calls it issues, in order, and its result.
   */
  function Provision(rt: Runtime, h: seq<Request>, cloudName: string, image: ImageProfile): (run: Run)
  {
    var n := image.dockerImageName;
    var inspected := [Request.InspectImage(n)];
    match ImageExists(rt.inspectImage(h, n))
    case Threw(e) => Run(Threw(e), inspected)
    case Returned(present) =>
      match DecidePull(present, image.pullForced, image.pullDisabled)
      case FailPullDisabled => Run(Threw(IllegalStateException(PullDisabledMessage(cloudName, image))), inspected)
      case SkipPull => After(inspected, CreateAndStart(rt, h + inspected, cloudName, image))
      case DoPull =>
        var pulled := inspected + [Request.PullImage(n)];
        match rt.pull(h + inspected, n)
        case Failed(e) => Run(Threw(e), pulled)
        case Done => After(pulled, CreateAndStart(rt, h + pulled, cloudName, image))
  }

  /** The calls Provision issues before the second inspect, when it gets that far. */
  function PullStep(rt: Runtime, h: seq<Request>, image: ImageProfile): (pre: seq<Request>)
  {
    var n := image.dockerImageName;
    var present := ImageExists(rt.inspectImage(h, n));
    if present.Returned? && DecidePull(present.value, image.pullForced, image.pullDisabled) == SkipPull
    then [Request.InspectImage(n)]
    else [Request.InspectImage(n), Request.PullImage(n)]
  }

  /**
   * The part of callWithDocker after the pull step, issued on a client whose
   * history is `hist`: second inspect, create, start, exec user and node name.
   */
  function CreateAndStart(rt: Runtime, hist: seq<Request>, cloudName: string, image: ImageProfile): (run: Run)
  {
    var n := image.dockerImageName;
    var inspected := [Request.InspectImage(n)];
    match rt.inspectImage(hist, n)
    case ImageFailed(e) => Run(Threw(e), inspected)
    case NoImageInfo => Run(Threw(NullPointerException), inspected)
    case ImageInfo(imageUser) =>
      var config := ContainerConfigFor(cloudName, image);
      var created := inspected + [Request.CreateContainer(config)];
      match rt.createContainer(hist + inspected, config)
      case CreateFailed(e) => Run(Threw(e), created)
      case Created(id) =>
        var started := created + [Request.StartContainer(id)];
        match rt.startContainer(hist + created, id)
        case Failed(e) => Run(Threw(e), started)
        case Done =>
          var execUser := ResolveExecUser(image.userOverride, imageUser);
          match NodeName(id)
          case Threw(e) => Run(Threw(e), started)
          case Returned(name) =>
            Run(Returned(NewNode(name, id, NodeDescription(cloudName, image), image.remoteFS,
                                 image.mode, image.labelString, execUser)), started)
  }

  class CreateContainerCallable {
    const dockerClient: DockerClient
    const cloudName: string
    const dockerImage: ImageProfile

    constructor (dockerClient: DockerClient, cloudName: string, dockerImage: ImageProfile)
      ensures this.dockerClient == dockerClient && this.cloudName == cloudName && this.dockerImage == dockerImage
    {
      this.dockerClient := dockerClient;
      this.cloudName := cloudName;
      this.dockerImage := dockerImage;
    }

    method CallWithDocker(client: DockerClient) returns (r: Outcome<NewNode>)
      modifies client
      ensures var run := Provision(client.runtime, old(client.calls), cloudName, dockerImage);
        r == run.outcome && client.calls == old(client.calls) + run.calls
    {
      ghost var h := client.calls;
      var pulled, pre := PullIfNeeded(client);
      if pulled.Threw? {
        return Threw(pulled.exception);
      }
      ghost var tail := CreateAndStart(client.runtime, h + pre, cloudName, dockerImage);
      assert Provision(client.runtime, h, cloudName, dockerImage) == Run(tail.outcome, pre + tail.calls);
      r := StartContainer(client);
      assert client.calls == h + (pre + tail.calls);
    }

    /**
     * The first half of callWithDocker: check that the image exists, then pull
     * it when it is absent or the pull is forced, unless pulls are disabled.
     * `pre` are the calls made.
     */
    method PullIfNeeded(client: DockerClient) returns (r: Outcome<()>, ghost pre: seq<Request>)
      modifies client
      ensures client.calls == old(client.calls) + pre
      ensures var run := Provision(client.runtime, old(client.calls), cloudName, dockerImage);
        r.Threw? ==> run.outcome == Threw(r.exception) && run.calls == pre
      ensures var run := Provision(client.runtime, old(client.calls), cloudName, dockerImage);
        r.Returned? ==>
          pre == PullStep(client.runtime, old(client.calls), dockerImage)
          && run == After(pre, CreateAndStart(client.runtime, old(client.calls) + pre, cloudName, dockerImage))
    {
      ghost var h := client.calls;
      ProvisionCases(client.runtime, h, cloudName, dockerImage);
      var n := dockerImage.dockerImageName;
      var reply := client.InspectImage(n);
      pre := [Request.InspectImage(n)];
      var present := ImageExists(reply);
      if present.Threw? {
        return Threw(present.exception), pre;
      }
      if !present.value || dockerImage.pullForced {
        if dockerImage.pullDisabled {
          return Threw(IllegalStateException(PullDisabledMessage(cloudName, dockerImage))), pre;
        }
        var pulled := client.Pull(n);
        pre := pre + [Request.PullImage(n)];
        if pulled.Failed? {
          return Threw(pulled.error), pre;
        }
      }
      r := Returned(());
    }

    /** The second half of callWithDocker: inspect again, create, start, name the node. */
    method StartContainer(client: DockerClient) returns (r: Outcome<NewNode>)
      modifies client
      ensures var run := CreateAndStart(client.runtime, old(client.calls), cloudName, dockerImage);
        r == run.outcome && client.calls == old(client.calls) + run.calls
    {
      ghost var h := client.calls;
      var n := dockerImage.dockerImageName;
      var info := client.InspectImage(n);
      if info.ImageFailed? {
        return Threw(info.error);
      } else if info.NoImageInfo? {
        return Threw(NullPointerException);
      }
      var imageUser := info.user;

      var containerConfig := ContainerConfig(n, true, true, true, ["cat"], WorkingDirFor(dockerImage.workingDir),
        Labels.ContainerLabels(cloudName, dockerImage.name, dockerImage.labelString),
        VolumeLines(dockerImage.volumes), HostConfigFor(dockerImage));
      var creation := client.CreateContainer(containerConfig);
      assert client.calls == h + [Request.InspectImage(n), Request.CreateContainer(containerConfig)];
      if creation.CreateFailed? {
        return Threw(creation.error);
      }
      assert [Request.InspectImage(n)] + [Request.CreateContainer(containerConfig)]
        == [Request.InspectImage(n), Request.CreateContainer(containerConfig)];
      var started := client.StartContainer(creation.id);
      assert client.calls == h + [Request.InspectImage(n), Request.CreateContainer(containerConfig), Request.StartContainer(creation.id)];
      if started.Failed? {
        return Threw(started.error);
      }

      var execUser: JString;
      if HasText(dockerImage.userOverride) {
        execUser := dockerImage.userOverride;
      } else if HasText(imageUser) {
        execUser := Some(Trim(imageUser.value));
      } else {
        execUser := None;
      }

      if |creation.id| < 12 {
        return Threw(StringIndexOutOfBoundsException);
      }
      var name := creation.id[..12];
      r := Returned(NewNode(name, creation.id, NodeDescription(cloudName, dockerImage), dockerImage.remoteFS,
                            dockerImage.mode, dockerImage.labelString, execUser));
    }

    /** DockerClientCallable.call: callWithDocker on the callable's own client, which is then closed. */
    method Call() returns (r: Outcome<NewNode>)
      modifies dockerClient
      ensures var run := Provision(dockerClient.runtime, old(dockerClient.calls), cloudName, dockerImage);
        r == run.outcome && dockerClient.calls == old(dockerClient.calls) + run.calls + [Request.Close]
    {
      r := CallWithDocker(dockerClient);
      dockerClient.Close();
    }
  }

  // ----- What the provisioning run promises -----

  /**
   * The calls of the second half: the second inspect; a create with the
   * profile's configuration once that inspect returned info; a start of the
   * id that create returned; a node only after a successful start.
   */
  lemma CreateAndStartShape(rt: Runtime, hist: seq<Request>, cloudName: string, image: ImageProfile)
    ensures var run := CreateAndStart(rt, hist, cloudName, image);
      var config := ContainerConfigFor(cloudName, image);
      && 1 <= |run.calls| <= 3
      && run.calls[0] == Request.InspectImage(image.dockerImageName)
      && (|run.calls| >= 2 <==> rt.inspectImage(hist, image.dockerImageName).ImageInfo?)
      && (|run.calls| >= 2 ==> run.calls[1] == Request.CreateContainer(config))
      && (|run.calls| == 3 <==> |run.calls| >= 2 && rt.createContainer(hist + run.calls[..1], config).Created?)
      && (|run.calls| == 3 ==> run.calls[2] == Request.StartContainer(rt.createContainer(hist + run.calls[..1], config).id))
      && (run.outcome.Returned? ==> |run.calls| == 3 && rt.startContainer(hist + run.calls[..2], run.calls[2].id).Done?)
  {
    var run := CreateAndStart(rt, hist, cloudName, image);
    if |run.calls| >= 2 {
      assert run.calls[..1] == [Request.InspectImage(image.dockerImageName)];
    }
    if |run.calls| == 3 {
      assert run.calls[..2] == [Request.InspectImage(image.dockerImageName), Request.CreateContainer(ContainerConfigFor(cloudName, image))];
    }
  }

  /** Past the pull step, the run is the pull step's calls followed by the second half. */
  lemma ProvisionAfterPullStep(rt: Runtime, h: seq<Request>, cloudName: string, image: ImageProfile)
    requires var run := Provision(rt, h, cloudName, image);
      |run.calls| > |PullStep(rt, h, image)| || run.outcome.Returned?
    ensures Provision(rt, h, cloudName, image)
      == After(PullStep(rt, h, image), CreateAndStart(rt, h + PullStep(rt, h, image), cloudName, image))
  {
    var n := image.dockerImageName;
    var present := ImageExists(rt.inspectImage(h, n));
    var run := Provision(rt, h, cloudName, image);
    if present.Returned? && DecidePull(present.value, image.pullForced, image.pullDisabled) == DoPull {
      assert [Request.InspectImage(n)] + [Request.PullImage(n)] == [Request.InspectImage(n), Request.PullImage(n)];
      assert rt.pull(h + [Request.InspectImage(n)], n).Done?;
    }
  }

  /** How Provision ends, case by case, before and after the pull step. */
  lemma ProvisionCases(rt: Runtime, h: seq<Request>, cloudName: string, image: ImageProfile)
    ensures var n := image.dockerImageName;
      var present := ImageExists(rt.inspectImage(h, n));
      var run := Provision(rt, h, cloudName, image);
      && (present.Threw? ==> run == Run(Threw(present.exception), [Request.InspectImage(n)]))
      && (present.Returned? && (!present.value || image.pullForced) && image.pullDisabled
          ==> run == Run(Threw(IllegalStateException(PullDisabledMessage(cloudName, image))), [Request.InspectImage(n)]))
      && (present.Returned? && (!present.value || image.pullForced) && !image.pullDisabled
          && rt.pull(h + [Request.InspectImage(n)], n).Failed?
          ==> run == Run(Threw(rt.pull(h + [Request.InspectImage(n)], n).error), [Request.InspectImage(n), Request.PullImage(n)]))
      && (present.Returned? && (!present.value || image.pullForced) && !image.pullDisabled
          && rt.pull(h + [Request.InspectImage(n)], n).Done?
          ==> PullStep(rt, h, image) == [Request.InspectImage(n), Request.PullImage(n)])
      && (present.Returned? && present.value && !image.pullForced ==> PullStep(rt, h, image) == [Request.InspectImage(n)])
      && (present.Returned? && ((present.value && !image.pullForced) || (!image.pullDisabled && rt.pull(h + [Request.InspectImage(n)], n).Done?))
          ==> run == After(PullStep(rt, h, image), CreateAndStart(rt, h + PullStep(rt, h, image), cloudName, image)))
  {
    var n := image.dockerImageName;
    assert [Request.InspectImage(n)] + [Request.PullImage(n)] == [Request.InspectImage(n), Request.PullImage(n)];
  }

  /** The first call is always the existence check on the configured image. */
  lemma ProvisionInspectsFirst(rt: Runtime, h: seq<Request>, cloudName: string, image: ImageProfile)
    ensures var run := Provision(rt, h, cloudName, image);
      |run.calls| >= 1 && run.calls[0] == Request.InspectImage(image.dockerImageName)
  {
  }

  /** An inspect failure other than "not found" propagates before anything is pulled or created. */
  lemma InspectErrorStops(rt: Runtime, h: seq<Request>, cloudName: string, image: ImageProfile)
    requires var reply := rt.inspectImage(h, image.dockerImageName);
      reply.ImageFailed? && reply.error != ImageNotFoundException
    ensures Provision(rt, h, cloudName, image)
      == Run(Threw(rt.inspectImage(h, image.dockerImageName).error), [Request.InspectImage(image.dockerImageName)])
  {
  }

  /** A pull is issued exactly when the image is absent or the pull is forced, and pulls are not disabled. */
  lemma PullIssuedIff(rt: Runtime, h: seq<Request>, cloudName: string, image: ImageProfile)
    ensures var present := ImageExists(rt.inspectImage(h, image.dockerImageName));
      Request.PullImage(image.dockerImageName) in Provision(rt, h, cloudName, image).calls
      <==> present.Returned? && (!present.value || image.pullForced) && !image.pullDisabled
  {
    var n := image.dockerImageName;
    var present := ImageExists(rt.inspectImage(h, n));
    ProvisionCases(rt, h, cloudName, image);
    if present.Returned? && present.value && !image.pullForced {
      SkippedPullIssuesNone(rt, h, cloudName, image);
    } else if present.Returned? && (!present.value || image.pullForced) && !image.pullDisabled {
      assert Provision(rt, h, cloudName, image).calls[1] == Request.PullImage(n);
    }
  }

  /** When the image is present and the pull is not forced, no call of the run is a pull. */
  lemma SkippedPullIssuesNone(rt: Runtime, h: seq<Request>, cloudName: string, image: ImageProfile)
    requires var present := ImageExists(rt.inspectImage(h, image.dockerImageName));
      present.Returned? && present.value && !image.pullForced
    ensures Request.PullImage(image.dockerImageName) !in Provision(rt, h, cloudName, image).calls
  {
    var n := image.dockerImageName;
    var inspected := [Request.InspectImage(n)];
    var run := Provision(rt, h, cloudName, image);
    var tail := CreateAndStart(rt, h + inspected, cloudName, image);
    CreateAndStartShape(rt, h + inspected, cloudName, image);
    assert run.calls == inspected + tail.calls;
    forall k | 0 <= k < |run.calls|
      ensures run.calls[k] != Request.PullImage(n)
    {
      if k >= 1 {
        assert run.calls[k] == tail.calls[k - 1];
      }
    }
  }

  /** Image absent or pull forced, with pulls disabled: the run fails without pulling, creating or starting. */
  lemma PullDisabledFails(rt: Runtime, h: seq<Request>, cloudName: string, image: ImageProfile)
    requires var present := ImageExists(rt.inspectImage(h, image.dockerImageName));
      present.Returned? && (!present.value || image.pullForced) && image.pullDisabled
    ensures var run := Provision(rt, h, cloudName, image);
      run.outcome == Threw(IllegalStateException(PullDisabledMessage(cloudName, image)))
      && run.calls == [Request.InspectImage(image.dockerImageName)]
  {
  }

  /** A run that stops within the pull step has issued a prefix of the pull step's calls. */
  lemma ProvisionStopsInPullStep(rt: Runtime, h: seq<Request>, cloudName: string, image: ImageProfile)
    requires |Provision(rt, h, cloudName, image).calls| <= |PullStep(rt, h, image)|
    ensures var run := Provision(rt, h, cloudName, image);
      forall k :: 0 <= k < |run.calls| ==> run.calls[k] == PullStep(rt, h, image)[k]
  {
    var n := image.dockerImageName;
    var present := ImageExists(rt.inspectImage(h, n));
    if present.Returned? && DecidePull(present.value, image.pullForced, image.pullDisabled) == SkipPull {
      CreateAndStartShape(rt, h + [Request.InspectImage(n)], cloudName, image);
    }
  }

  /** The pull step issues no start. */
  lemma PullStepStartsNothing(rt: Runtime, h: seq<Request>, image: ImageProfile)
    ensures var pre := PullStep(rt, h, image);
      1 <= |pre| <= 2 && forall k :: 0 <= k < |pre| ==> !pre[k].StartContainer?
  {
  }

  /** Only the last call of a run can be a start. */
  lemma OnlyLastCallStarts(rt: Runtime, h: seq<Request>, cloudName: string, image: ImageProfile)
    ensures var run := Provision(rt, h, cloudName, image);
      forall k :: 0 <= k < |run.calls| - 1 ==> !run.calls[k].StartContainer?
  {
    var run := Provision(rt, h, cloudName, image);
    var pre := PullStep(rt, h, image);
    PullStepStartsNothing(rt, h, image);
    if |run.calls| > |pre| {
      ProvisionAfterPullStep(rt, h, cloudName, image);
      var tail := CreateAndStart(rt, h + pre, cloudName, image);
      CreateAndStartShape(rt, h + pre, cloudName, image);
      assert run.calls == pre + tail.calls;
      forall k | 0 <= k < |run.calls| - 1
        ensures !run.calls[k].StartContainer?
      {
        if k >= |pre| {
          assert run.calls[k] == tail.calls[k - |pre|];
        }
      }
    } else {
      ProvisionStopsInPullStep(rt, h, cloudName, image);
    }
  }

  /**
   * A start, which can only be the last call, targets the id returned by the
   * create issued just before it, which carries the profile's configuration.
   */
  lemma StartFollowsCreate(rt: Runtime, h: seq<Request>, cloudName: string, image: ImageProfile)
    ensures var run := Provision(rt, h, cloudName, image);
      forall k :: 0 <= k < |run.calls| - 1 ==> !run.calls[k].StartContainer?
    ensures var run := Provision(rt, h, cloudName, image);
      var k := |run.calls| - 1;
      var config := ContainerConfigFor(cloudName, image);
      run.calls[k].StartContainer? ==>
        k >= 1 && run.calls[k - 1] == Request.CreateContainer(config)
        && rt.createContainer(h + run.calls[..k - 1], config) == Created(run.calls[k].id)
  {
    OnlyLastCallStarts(rt, h, cloudName, image);
    var run := Provision(rt, h, cloudName, image);
    var pre := PullStep(rt, h, image);
    PullStepStartsNothing(rt, h, image);
    ProvisionInspectsFirst(rt, h, cloudName, image);
    if |run.calls| > |pre| {
      ProvisionAfterPullStep(rt, h, cloudName, image);
      var tail := CreateAndStart(rt, h + pre, cloudName, image);
      CreateAndStartShape(rt, h + pre, cloudName, image);
      assert run.calls == pre + tail.calls;
      if |tail.calls| == 3 {
        assert run.calls[..|run.calls| - 2] == pre + tail.calls[..1];
        assert h + run.calls[..|run.calls| - 2] == (h + pre) + tail.calls[..1];
      } else {
        assert run.calls[|run.calls| - 1] == tail.calls[|tail.calls| - 1];
      }
    } else {
      ProvisionStopsInPullStep(rt, h, cloudName, image);
      assert run.calls[|run.calls| - 1] == pre[|run.calls| - 1];
    }
  }

  /**
   * A successful run names the node after the first twelve chars of the id it
   * started, after creating and starting exactly that container, and runs the
   * launcher as the resolved user of the image inspected after the pull step.
   */
  lemma ProvisionSuccess(rt: Runtime, h: seq<Request>, cloudName: string, image: ImageProfile)
    requires Provision(rt, h, cloudName, image).outcome.Returned?
    ensures var run := Provision(rt, h, cloudName, image);
      var node := run.outcome.value;
      var k := |run.calls| - 3;
      && |node.dockerId| >= 12 && node.name == node.dockerId[..12]
      && k >= 1
      && run.calls[k..] == [Request.InspectImage(image.dockerImageName),
                            Request.CreateContainer(ContainerConfigFor(cloudName, image)),
                            Request.StartContainer(node.dockerId)]
      && rt.inspectImage(h + run.calls[..k], image.dockerImageName).ImageInfo?
      && node.execUser == ResolveExecUser(image.userOverride, rt.inspectImage(h + run.calls[..k], image.dockerImageName).user)
      && node.remoteFS == image.remoteFS && node.mode == image.mode && node.labelString == image.labelString
  {
    var run := Provision(rt, h, cloudName, image);
    var pre := PullStep(rt, h, image);
    ProvisionAfterPullStep(rt, h, cloudName, image);
    var tail := CreateAndStart(rt, h + pre, cloudName, image);
    CreateAndStartShape(rt, h + pre, cloudName, image);
    assert run.calls[..|pre|] == pre;
  }

  /**
   * A container whose start succeeded but whose id is shorter than twelve
   * chars is left running: the run throws after starting it.
   */
  lemma ShortIdLeavesContainerRunning(rt: Runtime, hist: seq<Request>, cloudName: string, image: ImageProfile)
    requires rt.inspectImage(hist, image.dockerImageName).ImageInfo?
    requires var config := ContainerConfigFor(cloudName, image);
      var c := rt.createContainer(hist + [Request.InspectImage(image.dockerImageName)], config);
      c.Created? && |c.id| < 12
      && rt.startContainer(hist + [Request.InspectImage(image.dockerImageName), Request.CreateContainer(config)], c.id).Done?
    ensures var config := ContainerConfigFor(cloudName, image);
      var c := rt.createContainer(hist + [Request.InspectImage(image.dockerImageName)], config);
      CreateAndStart(rt, hist, cloudName, image)
      == Run(Threw(StringIndexOutOfBoundsException),
             [Request.InspectImage(image.dockerImageName), Request.CreateContainer(config), Request.StartContainer(c.id)])
  {
    var n := image.dockerImageName;
    var config := ContainerConfigFor(cloudName, image);
    assert [Request.InspectImage(n)] + [Request.CreateContainer(config)] == [Request.InspectImage(n), Request.CreateContainer(config)];
  }
}

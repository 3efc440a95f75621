/**
 * DockerSlave: the node for one container, and its teardown (stop and remove
 * the container, then disconnect and deregister the node).
 */
module Slave {
  import opened JavaLang
  import opened DockerApi
  import opened Image
  import Cloud

  /** What teardown asks of Jenkins. */
  datatype JenkinsEffect = Disconnect(node: string) | RemoveNode(node: string)

  /** The Jenkins instance, reduced to the effects requested of it, in order. */
  class Jenkins {
    var effects: seq<JenkinsEffect>

    constructor ()
      ensures effects == []
    {
      effects := [];
    }

    /** `toComputer().disconnect(...)` */
    method Disconnect(node: string)
      modifies this
      ensures effects == old(effects) + [JenkinsEffect.Disconnect(node)]
    {
      effects := effects + [JenkinsEffect.Disconnect(node)];
    }

    /** `Jenkins.getInstance().removeNode(...)` */
    method RemoveNode(node: string)
      modifies this
      ensures effects == old(effects) + [JenkinsEffect.RemoveNode(node)]
    {
      effects := effects + [JenkinsEffect.RemoveNode(node)];
    }
  }

  const StopGraceSeconds: int := 30

  /** The calls and Jenkins effects of one teardown, and how it ended. */
  datatype TeardownRun = TeardownRun(outcome: Outcome<()>, calls: seq<Request>, effects: seq<JenkinsEffect>)

  /** A Docker failure becomes an IOException wrapping it; an interrupt propagates as it is. */
  function Rethrown(e: ClientException): (r: Exception)
    ensures IsDockerException(e) ==> r == IOException(e)
    ensures e.InterruptedException? ==> r == e
  {
    if IsDockerException(e) then IOException(e) else e
  }

  /** Deregistration: disconnect the computer if there is one, then remove the node. */
  function Deregister(name: string, hasComputer: bool): (effects: seq<JenkinsEffect>)
    ensures |effects| >= 1 && effects[|effects| - 1] == RemoveNode(name)
    ensures hasComputer ==> effects == [Disconnect(name), RemoveNode(name)]
    ensures !hasComputer ==> effects == [RemoveNode(name)]
  {
    (if hasComputer then [Disconnect(name)] else []) + [RemoveNode(name)]
  }

  /**
   * _terminate: with a container id, stop it (30 s grace) and remove it with
   * its volumes on a client of the cloud, wrapping Docker failures; then,
   * unless something was thrown, deregister the node.
   */
  function Teardown(endpoint: Endpoint, dockerId: JString, name: string, hasComputer: bool): (run: TeardownRun)
  {
    if dockerId.None? then TeardownRun(Returned(()), [], Deregister(name, hasComputer))
    else if endpoint.buildFailure.Some? then TeardownRun(Threw(endpoint.buildFailure.value), [], [])
    else
      var id := dockerId.value;
      var stopped := [Request.StopContainer(id, StopGraceSeconds)];
      match endpoint.runtime.stopContainer([], id, StopGraceSeconds)
      case Failed(e) => TeardownRun(Threw(Rethrown(e)), stopped, [])
      case Done =>
        var removed := stopped + [Request.RemoveContainer(id, true)];
        match endpoint.runtime.removeContainer(stopped, id, true)
        case Failed(e) => TeardownRun(Threw(Rethrown(e)), removed, [])
        case Done => TeardownRun(Returned(()), removed, Deregister(name, hasComputer))
  }

  /** Without a container id there is no Docker call, and the node is deregistered. */
  lemma NullIdMakesNoCalls(endpoint: Endpoint, name: string, hasComputer: bool)
    ensures Teardown(endpoint, None, name, hasComputer) == TeardownRun(Returned(()), [], Deregister(name, hasComputer))
  {
  }

  /** With an id, the calls are a prefix of: stop that id with 30 s grace, then remove it with volumes. */
  lemma StopBeforeRemove(endpoint: Endpoint, id: string, name: string, hasComputer: bool)
    ensures var run := Teardown(endpoint, Some(id), name, hasComputer);
      var full := [Request.StopContainer(id, 30), Request.RemoveContainer(id, true)];
      |run.calls| <= 2 && run.calls == full[..|run.calls|]
      && (endpoint.buildFailure.None? ==> |run.calls| >= 1)
      && (|run.calls| == 2 ==> endpoint.runtime.stopContainer([], id, 30).Done?)
  {
    var run := Teardown(endpoint, Some(id), name, hasComputer);
    var full := [Request.StopContainer(id, 30), Request.RemoveContainer(id, true)];
    assert full[..0] == [] && full[..2] == full;
    assert full[..1] == [Request.StopContainer(id, 30)];
  }

  /**
   * A Docker failure while stopping or removing is thrown as an IOException
   * wrapping it, and the node is then not deregistered.
   */
  lemma DockerFailureBecomesIOException(endpoint: Endpoint, id: string, name: string, hasComputer: bool)
    requires endpoint.buildFailure.None?
    requires var stop := endpoint.runtime.stopContainer([], id, 30);
      var remove := endpoint.runtime.removeContainer([Request.StopContainer(id, 30)], id, true);
      (stop.Failed? && IsDockerException(stop.error)) || (stop.Done? && remove.Failed? && IsDockerException(remove.error))
    ensures var run := Teardown(endpoint, Some(id), name, hasComputer);
      run.outcome.Threw? && run.outcome.exception.IOException? && IsDockerException(run.outcome.exception.cause)
      && run.effects == []
  {
  }

  /** Deregistration removes the node exactly once. */
  lemma DeregisterRemovesOnce(name: string, hasComputer: bool)
    ensures var effects := Deregister(name, hasComputer);
      |set k | 0 <= k < |effects| && effects[k] == RemoveNode(name)| == 1
  {
    var effects := Deregister(name, hasComputer);
    var removals := set k | 0 <= k < |effects| && effects[k] == RemoveNode(name);
    assert removals == {|effects| - 1};
  }

  /** The node is deregistered exactly when the teardown returns normally, and then exactly once. */
  lemma DeregisteredIffReturned(endpoint: Endpoint, dockerId: JString, name: string, hasComputer: bool)
    ensures var run := Teardown(endpoint, dockerId, name, hasComputer);
      (run.outcome.Returned? ==> run.effects == Deregister(name, hasComputer))
      && (run.outcome.Threw? ==> run.effects == [])
    ensures var run := Teardown(endpoint, dockerId, name, hasComputer);
      run.outcome.Returned? ==> |set k | 0 <= k < |run.effects| && run.effects[k] == RemoveNode(name)| == 1
  {
    DeregisterRemovesOnce(name, hasComputer);
  }

  /** Teardown returns normally exactly when there is no id or both Docker calls succeed. */
  lemma TeardownReturnsIff(endpoint: Endpoint, dockerId: JString, name: string, hasComputer: bool)
    ensures Teardown(endpoint, dockerId, name, hasComputer).outcome.Returned? <==>
      dockerId.None?
      || (endpoint.buildFailure.None?
          && endpoint.runtime.stopContainer([], dockerId.value, 30).Done?
          && endpoint.runtime.removeContainer([Request.StopContainer(dockerId.value, 30)], dockerId.value, true).Done?)
  {
  }

  /** Teardown never closes the client it obtains from the cloud. */
  lemma TeardownLeavesClientOpen(endpoint: Endpoint, dockerId: JString, name: string, hasComputer: bool)
    ensures CloseCount(Teardown(endpoint, dockerId, name, hasComputer).calls) == 0
  {
    var calls := Teardown(endpoint, dockerId, name, hasComputer).calls;
    assert forall k :: 0 <= k < |calls| ==> calls[k] != Request.Close;
  }

  class DockerSlave {
    const name: string
    const nodeDescription: string
    const remoteFS: string
    const numExecutors: int
    const mode: Mode
    const labelString: string
    const dockerCloud: Cloud.DockerCloud
    /** The container id, so that the container can be removed by id later; null until set. */
    var dockerId: JString

    constructor (dockerCloud: Cloud.DockerCloud, name: string, nodeDescription: string, remoteFS: string,
                 mode: Mode, labelString: string)
      ensures this.dockerCloud == dockerCloud && this.name == name && this.nodeDescription == nodeDescription
      ensures this.remoteFS == remoteFS && this.mode == mode && this.labelString == labelString
      ensures numExecutors == 1 && dockerId == None
    {
      this.dockerCloud := dockerCloud;
      this.name := name;
      this.nodeDescription := nodeDescription;
      this.remoteFS := remoteFS;
      this.numExecutors := 1;
      this.mode := mode;
      this.labelString := labelString;
      dockerId := None;
    }

    function GetDockerId(): (id: JString)
      reads this
    {
      dockerId
    }

    method SetDockerId(dockerId: JString)
      modifies this`dockerId
      ensures this.dockerId == dockerId && GetDockerId() == dockerId
    {
      this.dockerId := dockerId;
    }

    /**
     * _terminate; `hasComputer` says whether toComputer() is non-null and
     * `calls` are the calls made on the client obtained from the cloud.
     */
    method Terminate(jenkins: Jenkins, hasComputer: bool) returns (r: Outcome<()>, ghost calls: seq<Request>)
      modifies jenkins
      ensures var run := Teardown(dockerCloud.endpoint, dockerId, name, hasComputer);
        r == run.outcome && calls == run.calls && jenkins.effects == old(jenkins.effects) + run.effects
    {
      calls := [];
      if dockerId != None {
        var built := dockerCloud.BuildDockerClient();
        if built.Threw? {
          return Threw(built.exception), [];
        }
        var docker := built.value;
        var stopped := docker.StopContainer(dockerId.value, StopGraceSeconds);
        assert docker.calls == [Request.StopContainer(dockerId.value, StopGraceSeconds)];
        if stopped.Failed? {
          return Threw(Rethrown(stopped.error)), docker.calls;
        }
        var removed := docker.RemoveContainer(dockerId.value, true);
        if removed.Failed? {
          return Threw(Rethrown(removed.error)), docker.calls;
        }
        calls := docker.calls;
      }
      if hasComputer {
        jenkins.Disconnect(name);
      }
      jenkins.RemoveNode(name);
      r := Returned(());
    }
  }
}

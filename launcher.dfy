/**
 * DockerLauncher: the bootstrap command run inside a new container (fetch the
 * agent jar from Jenkins, connect back over JNLP), the exec parameters, the
 * wait for the agent, and how launch ends and cleans up.
 */
module Launcher {
  import opened JavaLang
  import opened DockerApi
  import Cloud

  const WaitForSlaveDefault: int := 60000
  const DisableSslVerificationFlag: string := " -disableSslVerification"

  /**
   * What launch reads from Jenkins and the JVM: the configured root URL, the
   * computer's relative URL and JNLP secret, whether the
   * `docker.launcher.slave.disablesslverification` property exists, the
   * decoded `...DockerLauncher.waitforslavems` property, and whether the
   * thread is interrupted while it waits.
   */
  datatype LaunchEnv = LaunchEnv(
    jenkinsUrl: string,
    computerUrl: string,
    jnlpMac: string,
    disableSslVerification: bool,
    waitForSlaveMs: Option<int>,
    interruptedWhileWaiting: bool)

  /** getJenkinsBaseUrl: the root URL, ending with exactly the '/' it had or one more. */
  function JenkinsBaseUrl(url: string): (base: string)
    ensures EndsWith(base, "/")
    ensures StartsWith(base, url) && |base| <= |url| + 1
    ensures EndsWith(url, "/") ==> base == url
    ensures !EndsWith(url, "/") ==> base == url + "/"
  {
    if EndsWith(url, "/") then url else url + "/"
  }

  /** Normalising an already normalised URL changes nothing. */
  lemma JenkinsBaseUrlIdempotent(url: string)
    ensures JenkinsBaseUrl(JenkinsBaseUrl(url)) == JenkinsBaseUrl(url)
  {
  }

  /** getSlaveJarUrl */
  function SlaveJarUrl(url: string): (r: string)
    ensures StartsWith(r, JenkinsBaseUrl(url)) && EndsWith(r, "jnlpJars/slave.jar")
    ensures |r| == |JenkinsBaseUrl(url)| + |"jnlpJars/slave.jar"|
  {
    JenkinsBaseUrl(url) + "jnlpJars/slave.jar"
  }

  /** getSlaveJnlpUrl */
  function SlaveJnlpUrl(url: string, computerUrl: string): (r: string)
    ensures StartsWith(r, JenkinsBaseUrl(url) + computerUrl) && EndsWith(r, "slave-agent.jnlp")
    ensures |r| == |JenkinsBaseUrl(url)| + |computerUrl| + |"slave-agent.jnlp"|
  {
    JenkinsBaseUrl(url) + computerUrl + "slave-agent.jnlp"
  }

  /** The agent's options: JNLP URL, secret, and the SSL flag exactly when the property is present. */
  function SlaveOptions(jnlpUrl: string, secret: string, disableSslVerification: bool): (r: string)
    ensures StartsWith(r, "-jnlpUrl " + jnlpUrl + " -secret " + secret)
    ensures disableSslVerification ==> r == "-jnlpUrl " + jnlpUrl + " -secret " + secret + DisableSslVerificationFlag
    ensures !disableSslVerification ==> r == "-jnlpUrl " + jnlpUrl + " -secret " + secret
  {
    "-jnlpUrl " + jnlpUrl + " -secret " + secret + (if disableSslVerification then DisableSslVerificationFlag else "")
  }

  /** The flag only ever lengthens the options by itself. */
  lemma SslFlagOnlyAppends(jnlpUrl: string, secret: string)
    ensures SlaveOptions(jnlpUrl, secret, true) == SlaveOptions(jnlpUrl, secret, false) + DisableSslVerificationFlag
  {
  }

  /** `sh -c "curl -o slave.jar <jar> && java -jar slave.jar <options>"` */
  function Command(jarUrl: string, slaveOptions: string): (r: seq<string>)
    ensures |r| == 3 && r[0] == "sh" && r[1] == "-c"
    ensures r[2] == "curl -o slave.jar " + jarUrl + " && java -jar slave.jar " + slaveOptions
  {
    ["sh", "-c", "curl -o slave.jar " + jarUrl + " && java -jar slave.jar " + slaveOptions]
  }

  /** The exec parameters: stderr, stdout and a tty, preceded by the user when one is set. */
  function ExecParams(execUser: JString): (r: seq<ExecParam>)
    ensures |r| >= 3 && r[|r| - 3..] == [AttachStderr(true), AttachStdout(true), Tty(true)]
    ensures execUser.None? ==> |r| == 3
    ensures execUser.Some? ==> |r| == 4 && r[0] == User(execUser.value)
  {
    var attach := [AttachStderr(true), AttachStdout(true), Tty(true)];
    if execUser.None? then attach else [User(execUser.value)] + attach
  }

  /** A user parameter appears exactly when an exec user is set, and then it is that user. */
  lemma ExecParamsUserIff(execUser: JString)
    ensures (exists k :: 0 <= k < |ExecParams(execUser)| && ExecParams(execUser)[k].User?) <==> execUser.Some?
    ensures forall k :: 0 <= k < |ExecParams(execUser)| && ExecParams(execUser)[k].User? ==>
      execUser == Some(ExecParams(execUser)[k].user)
  {
    var r := ExecParams(execUser);
    var attach := [AttachStderr(true), AttachStdout(true), Tty(true)];
    if execUser.Some? {
      assert r == [User(execUser.value)] + attach;
      assert r[0].User?;
    } else {
      assert r == attach;
    }
  }

  /** `Long.getLong(WAIT_FOR_SLAVE_PROPERTY, 60000)` */
  function WaitMillis(waitForSlaveMs: Option<int>): (ms: int)
    ensures waitForSlaveMs.None? ==> ms == WaitForSlaveDefault
    ensures waitForSlaveMs.Some? ==> ms == waitForSlaveMs.value
  {
    if waitForSlaveMs.None? then WaitForSlaveDefault else waitForSlaveMs.value
  }

  /** The exec launch creates inside the container. */
  function ExecRequest(containerId: string, execUser: JString, env: LaunchEnv): (q: Request)
    ensures q.ExecCreate? && q.containerId == containerId && q.params == ExecParams(execUser)
    ensures q.command == Command(SlaveJarUrl(env.jenkinsUrl),
      SlaveOptions(SlaveJnlpUrl(env.jenkinsUrl, env.computerUrl), env.jnlpMac, env.disableSslVerification))
  {
    var command := Command(SlaveJarUrl(env.jenkinsUrl),
      SlaveOptions(SlaveJnlpUrl(env.jenkinsUrl, env.computerUrl), env.jnlpMac, env.disableSslVerification));
    Request.ExecCreate(containerId, command, ExecParams(execUser))
  }

  /** The calls launch makes on the client it builds, and how it ends. */
  datatype LaunchResult = LaunchResult(outcome: Outcome<()>, calls: seq<Request>)

  /**
   * launch after the JNLP listener is up: build a client (a certificate
   * problem ends quietly), create the exec, wait for the agent; Docker errors
   * are swallowed, interrupts and unchecked exceptions propagate, and a
   * built client is closed on every path.
   */
  function LaunchRun(endpoint: Endpoint, containerId: string, execUser: JString, env: LaunchEnv): (run: LaunchResult)
  {
    if endpoint.buildFailure.Some? then
      var e := endpoint.buildFailure.value;
      LaunchResult(if e == DockerCertificateException then Returned(()) else Threw(e), [])
    else
      var exec := ExecRequest(containerId, execUser, env);
      var closed := [exec, Request.Close];
      match endpoint.runtime.execCreate([], exec.containerId, exec.command, exec.params)
      case ExecFailed(e) => LaunchResult(if e.InterruptedException? then Threw(e) else Returned(()), closed)
      case ExecCreated(_) =>
        if WaitMillis(env.waitForSlaveMs) < 0 then LaunchResult(Threw(IllegalArgumentException), closed)
        else if env.interruptedWhileWaiting then LaunchResult(Threw(InterruptedException), closed)
        else LaunchResult(Returned(()), closed)
  }

  /** A client that was built is closed exactly once, as the last call; none built means no calls. */
  lemma LaunchClosesClientOnce(endpoint: Endpoint, containerId: string, execUser: JString, env: LaunchEnv)
    ensures var run := LaunchRun(endpoint, containerId, execUser, env);
      endpoint.buildFailure.None? ==> CloseCount(run.calls) == 1 && run.calls[|run.calls| - 1] == Request.Close
    ensures endpoint.buildFailure.Some? ==> LaunchRun(endpoint, containerId, execUser, env).calls == []
  {
    var run := LaunchRun(endpoint, containerId, execUser, env);
    if endpoint.buildFailure.None? {
      var exec := ExecRequest(containerId, execUser, env);
      assert run.calls == [exec] + [Request.Close];
      CloseCountAppend([exec], [Request.Close]);
      assert [exec][..0] == [];
      assert [Request.Close][..0] == [];
    }
  }

  /** Launch only ever issues its exec against the slave's container, with the bootstrap command. */
  lemma LaunchExecsBootstrap(endpoint: Endpoint, containerId: string, execUser: JString, env: LaunchEnv)
    requires endpoint.buildFailure.None?
    ensures LaunchRun(endpoint, containerId, execUser, env).calls[0] == ExecRequest(containerId, execUser, env)
  {
  }

  /** Docker and certificate errors are swallowed: launch returns normally. */
  lemma LaunchSwallowsDockerErrors(endpoint: Endpoint, containerId: string, execUser: JString, env: LaunchEnv)
    requires endpoint.buildFailure == Some(DockerCertificateException)
      || (endpoint.buildFailure.None?
          && var exec := ExecRequest(containerId, execUser, env);
          var reply := endpoint.runtime.execCreate([], containerId, exec.command, exec.params);
          reply.ExecFailed? && IsDockerException(reply.error))
    ensures LaunchRun(endpoint, containerId, execUser, env).outcome == Returned(())
  {
  }

  /** An interrupt, during the exec call or the wait, is rethrown. */
  lemma LaunchRethrowsInterrupt(endpoint: Endpoint, containerId: string, execUser: JString, env: LaunchEnv)
    requires endpoint.buildFailure.None?
    requires var exec := ExecRequest(containerId, execUser, env);
      var reply := endpoint.runtime.execCreate([], containerId, exec.command, exec.params);
      reply == ExecFailed(InterruptedException)
      || (reply.ExecCreated? && WaitMillis(env.waitForSlaveMs) >= 0 && env.interruptedWhileWaiting)
    ensures LaunchRun(endpoint, containerId, execUser, env).outcome == Threw(InterruptedException)
  {
  }

  /** launch never fails with a Docker or certificate exception. */
  lemma LaunchNeverThrowsDockerErrors(endpoint: Endpoint, containerId: string, execUser: JString, env: LaunchEnv)
    ensures var r := LaunchRun(endpoint, containerId, execUser, env).outcome;
      r.Threw? ==> !IsDockerException(r.exception) && r.exception != DockerCertificateException
  {
  }

  class DockerLauncher {
    var execUser: JString

    constructor (execUser: JString)
      ensures this.execUser == execUser
    {
      this.execUser := execUser;
    }

    function GetExecUser(): (u: JString)
      reads this
    {
      execUser
    }

    method SetExecUser(execUser: JString)
      modifies this
      ensures this.execUser == execUser && GetExecUser() == execUser
    {
      this.execUser := execUser;
    }

    /**
     * launch, for the slave whose cloud is `cloud` and whose container is
     * `containerId`; `calls` are the calls made on the client it built.
     */
    method Launch(cloud: Cloud.DockerCloud, containerId: string, env: LaunchEnv)
      returns (r: Outcome<()>, ghost calls: seq<Request>)
      ensures var run := LaunchRun(cloud.endpoint, containerId, execUser, env);
        r == run.outcome && calls == run.calls
    {
      var built := cloud.BuildDockerClient();
      if built.Threw? {
        if built.exception == DockerCertificateException {
          return Returned(()), [];
        }
        return Threw(built.exception), [];
      }
      r, calls := ExecAndWait(built.value, containerId, env);
    }

    /** The part of launch after the client is built: exec, wait, and close the client. */
    method ExecAndWait(dockerClient: DockerClient, containerId: string, env: LaunchEnv)
      returns (r: Outcome<()>, ghost calls: seq<Request>)
      requires dockerClient.calls == []
      modifies dockerClient
      ensures var run := LaunchRun(Endpoint(dockerClient.runtime, None), containerId, execUser, env);
        r == run.outcome && calls == run.calls && dockerClient.calls == run.calls
    {
      ghost var run := LaunchRun(Endpoint(dockerClient.runtime, None), containerId, execUser, env);
      // the options, the `sh -c` command and the exec parameters
      var exec := ExecRequest(containerId, execUser, env);
      var execCreation := dockerClient.ExecCreate(exec.containerId, exec.command, exec.params);
      assert dockerClient.calls == [exec];
      assert run.calls == [exec, Request.Close];
      if execCreation.ExecFailed? {
        r := if execCreation.error.InterruptedException? then Threw(execCreation.error) else Returned(());
        assert r == run.outcome;
      } else {
        var wait := WaitMillis(env.waitForSlaveMs);
        if wait < 0 {
          r := Threw(IllegalArgumentException);
        } else if env.interruptedWhileWaiting {
          r := Threw(InterruptedException);
        } else {
          r := Returned(());
        }
        assert r == run.outcome;
      }
      dockerClient.Close();
      calls := dockerClient.calls;
    }
  }
}

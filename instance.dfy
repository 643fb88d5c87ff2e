/**
 * runContainer itself: the caller's configuration object, which the call
 * updates in place, the step-by-step synthesis of the launch command, and the
 * two-phase failure policy around the `docker run` and `docker logs -f`
 * processes. Process execution and logging are recorded as events of a
 * trace; whether each process fails is a parameter.
 */
module Instance {
  import opened Wrappers
  import opened Text
  import opened JsValues
  import opened Volumes
  import opened Launch

  /** How an external step went: a process exit status or a thrown error. */
  datatype Outcome = Succeeded | Failed(detail: string)

  /** What runContainer does that is visible outside it. */
  datatype Event =
    | Exec(command: string)           // a process run with inherited stdio
    | ErrorPrinted(detail: string)    // the caught error, on the console
    | ErrorLogged(message: string)
    | InfoLogged(containerName: string)

  /** How the call ends. */
  datatype Ending = Returned | Exited(code: int) | Threw(detail: string)

  const LaunchFailedMessage := "Something went wrong :("

  /** The command that follows the container's log stream. */
  function LogsCommand(containerName: string): string {
    "docker logs -f " + containerName
  }

  /**
   * The Toolbox condition: the platform is Windows and DOCKER_TOOLBOX_INSTALL_PATH
   * is set to a truthy, that is non-empty, string.
   */
  function ToolboxSignal(platform: string, installPath: Option<string>): bool {
    platform == "win32" && installPath.Some? && installPath.value != ""
  }

  /** The commands a trace runs, in order. */
  function Commands(trace: seq<Event>): (r: seq<string>)
    ensures |r| <= |trace|
  {
    if trace == [] then []
    else (if trace[0].Exec? then [trace[0].command] else []) + Commands(trace[1..])
  }

  /**
   * The failure policy after the command is built: a failed launch prints the
   * error, logs it and exits with status 1 without following the logs; a
   * successful launch follows the logs, and a failed follow only logs an
   * informational message naming the container.
   */
  function Supervise(command: string, containerName: string, launch: Outcome, follow: Outcome)
    : (r: (seq<Event>, Ending))
    ensures r.0 != [] && r.0[0] == Exec(command)
    ensures r.1 == (if launch.Failed? then Exited(1) else Returned)
    ensures Commands(r.0) == if launch.Failed? then [command] else [command, LogsCommand(containerName)]
    ensures ErrorLogged(LaunchFailedMessage) in r.0 <==> launch.Failed?
    ensures launch.Failed? ==> ErrorPrinted(launch.detail) in r.0
    ensures InfoLogged(containerName) in r.0 <==> launch.Succeeded? && follow.Failed?
  {
    if launch.Failed? then
      var trace := [Exec(command), ErrorPrinted(launch.detail), ErrorLogged(LaunchFailedMessage)];
      assert Commands(trace[1..]) == [] by {
        assert trace[1..][1..][1..] == [];
      }
      (trace, Exited(1))
    else
      var trace := [Exec(command), Exec(LogsCommand(containerName))]
                   + (if follow.Failed? then [InfoLogged(containerName)] else []);
      var rest := if follow.Failed? then [InfoLogged(containerName)] else [];
      assert trace[1..][1..] == rest;
      assert Commands(rest) == [] by {
        if rest != [] {
          assert rest[1..] == [];
        }
      }
      assert Commands(trace[1..]) == [LogsCommand(containerName)];
      (trace, Returned)
  }

  /** The caller's configuration object, whose envvars and SSH entries runContainer updates. */
  class InstanceConfig {
    var locale: string
    var instanceName: string
    var networkname: string
    var containerName: string
    var containerPort: int
    var dockerBridgeIP: string
    var alreadyInstalled: seq<string>
    var downloadPlugins: seq<string>
    var volumes: seq<string>
    var envvars: Fields
    var ftp: Option<Json>
    var ssh: Option<seq<Fields>>

    /** The configuration the object currently holds. */
    function Value(): Config
      reads this
    {
      Config(locale, instanceName, networkname, containerName, containerPort, dockerBridgeIP,
             alreadyInstalled, downloadPlugins, volumes, envvars, ftp, ssh)
    }

    constructor (c: Config)
      ensures Value() == c
    {
      locale, instanceName, networkname, containerName := c.locale, c.instanceName, c.networkname, c.containerName;
      containerPort, dockerBridgeIP, alreadyInstalled := c.containerPort, c.dockerBridgeIP, c.alreadyInstalled;
      downloadPlugins, volumes, envvars, ftp, ssh := c.downloadPlugins, c.volumes, c.envvars, c.ftp, c.ssh;
    }

    /**
     * The map over a copy of the SSH entries: each entry's mount is built from
     * the copy while the caller's entry at the same index loses its host path.
     */
    method StripSsh() returns (keyPathVolumes: seq<string>)
      requires ssh.Some?
      modifies this`ssh
      ensures ssh == Some(StripKeyPaths(old(ssh.value)))
      ensures keyPathVolumes == KeyMounts(old(ssh.value))
    {
      var sshCopy := ssh.value;
      keyPathVolumes := [];
      var index := 0;
      while index < |sshCopy|
        invariant 0 <= index <= |sshCopy|
        invariant ssh.Some? && |ssh.value| == |sshCopy|
        invariant forall j :: 0 <= j < index ==> ssh.value[j] == StripKeyPath(sshCopy[j])
        invariant forall j :: index <= j < |sshCopy| ==> ssh.value[j] == sshCopy[j]
        invariant |keyPathVolumes| == index
        invariant forall j :: 0 <= j < index ==> keyPathVolumes[j] == KeyMount(sshCopy[j])
      {
        keyPathVolumes := keyPathVolumes + [KeyMount(sshCopy[index])];
        ssh := Some(ssh.value[index := StripKeyPath(ssh.value[index])]);
        index := index + 1;
      }
      assert ssh.value == StripKeyPaths(sshCopy);
      assert keyPathVolumes == KeyMounts(sshCopy);
    }

    /** Under Docker Toolbox, the three global replacements, one pass over the volumes each. */
    static method ToolboxStep(volumes: seq<string>, toolbox: bool) returns (vols: seq<string>)
      ensures vols == RewriteVolumes(volumes, toolbox)
    {
      vols := volumes;
      if toolbox {
        vols := seq(|vols|, i requires 0 <= i < |vols| => ReplaceDrive(vols[i]));
        vols := seq(|vols|, i requires 0 <= i < |vols| => ReplaceBackslashes(vols[i]));
        vols := seq(|vols|, i requires 0 <= i < |vols| => DoubleColonSlash(vols[i]));
      }
    }

    /** `if (ftp)`: the FTP payload, or nothing. */
    static method FtpStep(ftp: Option<Json>) returns (ftpenv: string)
      ensures ftpenv == FtpFragment(ftp)
    {
      ftpenv := "";
      if ftp.Some? && Truthy(ftp.value) {
        ftpenv := JsonEnvFlag("FTP_CONFIGS", ftp.value);
      }
    }

    /**
     * The first half of the synthesis, from the configuration `c` the object
     * holds: the plugin flag, the two injected environment variables with the
     * flags rendered from them, and the FTP payload.
     */
    method SynthesizeEnv(ghost c: Config) returns (dplugins: string, envs: string, ftpenv: string, apacheEnvVars: string)
      requires Value() == c
      modifies this`envvars
      ensures Value() == c.(envvars := InjectEnv(c.envvars, c.dockerBridgeIP, c.containerPort))
      ensures dplugins == PluginsFlag(PluginList(c.downloadPlugins))
      ensures envs == EnvFlags(InjectEnv(c.envvars, c.dockerBridgeIP, c.containerPort))
      ensures apacheEnvVars == ApacheFlag(InjectEnv(c.envvars, c.dockerBridgeIP, c.containerPort))
      ensures ftpenv == FtpFragment(c.ftp)
    {
      var plugins := downloadPlugins + [RelativeUrl];
      dplugins := PluginsFlag(plugins);

      envvars := InjectEnv(envvars, dockerBridgeIP, containerPort);
      apacheEnvVars := ApacheFlag(envvars);
      envs := EnvFlags(envvars);

      ftpenv := FtpStep(ftp);
    }

    /**
     * The second half, from the configuration `c` the object holds: `if (ssh)`
     * strips the entries, serialises them and adds their mounts to the
     * volumes; then the Toolbox rewriting and the join.
     */
    method SynthesizeVolumes(ghost c: Config, toolbox: bool) returns (v: string, sshenv: string)
      requires Value() == c
      modifies this`ssh
      ensures Value() == c.(ssh := if c.ssh.Some? then Some(StripKeyPaths(c.ssh.value)) else None)
      ensures v == Join(RewriteVolumes(AllVolumes(c.volumes, c.ssh), toolbox), " ")
      ensures sshenv == SshFragment(c.ssh)
    {
      var vols := volumes;
      sshenv := "";
      if ssh.Some? {
        var keyPathVolumes := StripSsh();
        sshenv := SshFlag(ssh.value);
        vols := vols + keyPathVolumes;
      }
      vols := ToolboxStep(vols, toolbox);
      v := Join(vols, " ");
    }

    /**
     * The two try/catch blocks: launch the container, then follow its logs.
     * A failed launch ends the process before the second block.
     */
    static method LaunchAndFollow(command: string, containerName: string, launch: Outcome, follow: Outcome)
      returns (trace: seq<Event>, ending: Ending)
      ensures (trace, ending) == Supervise(command, containerName, launch, follow)
    {
      trace := [Exec(command)];
      if launch.Failed? {
        trace := trace + [ErrorPrinted(launch.detail), ErrorLogged(LaunchFailedMessage)];
        ending := Exited(1);
        assert trace == Supervise(command, containerName, launch, follow).0;
        return;
      }
      trace := trace + [Exec(LogsCommand(containerName))];
      if follow.Failed? {
        trace := trace + [InfoLogged(containerName)];
      }
      ending := Returned;
      assert trace == Supervise(command, containerName, launch, follow).0;
    }

    /**
     * runContainer: prepares the database containers, builds the command,
     * launches it and follows the logs, under the two-phase failure policy.
     * `platform` is process.platform and `installPath` the value of
     * DOCKER_TOOLBOX_INSTALL_PATH, if set. A failure while preparing
     * propagates before anything is changed.
     */
    method RunContainer(prepare: Outcome, platform: string, installPath: Option<string>,
                        launch: Outcome, follow: Outcome)
      returns (trace: seq<Event>, ending: Ending)
      modifies this
      ensures prepare.Failed? ==> Value() == old(Value()) && trace == [] && ending == Threw(prepare.detail)
      ensures prepare.Succeeded? ==>
        && Value() == Resolve(old(Value()))
        && (trace, ending)
           == Supervise(Command(old(Value()), platform == "win32" && installPath.Some? && installPath.value != ""),
                        old(containerName), launch, follow)
    {
      if prepare.Failed? {
        return [], Threw(prepare.detail);
      }
      var toolbox := ToolboxSignal(platform, installPath);
      var c0 := Value();
      var dplugins, envs, ftpenv, apacheEnvVars := SynthesizeEnv(c0);
      var v, sshenv := SynthesizeVolumes(Value(), toolbox);
      var command := CommandLine(c0, v, dplugins, envs, sshenv, ftpenv, apacheEnvVars);
      CommandOfPieces(c0, toolbox, v, dplugins, envs, sshenv, ftpenv, apacheEnvVars);
      var name := containerName;
      trace, ending := LaunchAndFollow(command, name, launch, follow);
    }
  }
}

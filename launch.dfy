/**
 * The launch command runContainer synthesises, as a pure function of the
 * instance configuration: the plugin list, the injected environment
 * variables, the FTP and SSH payloads, the SSH key mounts, the volume flags
 * and the fixed layout of `docker run`. Resolve is the change runContainer
 * makes to the caller's configuration.
 */
module Launch {
  import opened Wrappers
  import opened Text
  import opened JsValues
  import opened JsonText
  import opened Volumes

  /** A fully resolved instance configuration. */
  datatype Config = Config(
    locale: string,
    instanceName: string,
    networkname: string,
    containerName: string,
    containerPort: int,
    dockerBridgeIP: string,
    alreadyInstalled: seq<string>,
    downloadPlugins: seq<string>,
    volumes: seq<string>,        // complete `-v host:container` flags
    envvars: Fields,
    ftp: Option<Json>,
    ssh: Option<seq<Fields>>)

  /** Every object in the configuration has distinct property names. */
  predicate WellFormed(c: Config) {
    && DistinctKeys(c.envvars)
    && (c.ssh.Some? ==> forall i :: 0 <= i < |c.ssh.value| ==> DistinctKeys(c.ssh.value[i]))
  }

  const RelativeUrl := "relative-url"
  const BridgeIpKey := "DOCKER_BRIDGE_IP"
  const PortKey := "DOCKER_CONTAINER_PORT"
  const KeyPathProp := "privateKeyPath"
  const KeyFileProp := "privateKeyFilename"

  /** The property names the model compares are different strings. */
  lemma PropertyNamesDiffer()
    ensures BridgeIpKey != PortKey && KeyPathProp != KeyFileProp
  {
    assert BridgeIpKey[7] != PortKey[7];
    assert KeyPathProp[10] != KeyFileProp[10];
  }

  // ---------------------------------------------------------------- plugins

  /** The plugins to download: the caller's list with relative-url appended, duplicates kept. */
  function PluginList(plugins: seq<string>): seq<string> {
    plugins + [RelativeUrl]
  }

  /**
   * The caller's plugins come first and in order, relative-url is last, and it
   * is appended even when already present.
   */
  lemma PluginListSpec(plugins: seq<string>)
    ensures var r := PluginList(plugins);
      && |r| == |plugins| + 1 && r[..|plugins|] == plugins && r[|plugins|] == RelativeUrl
      && multiset(r)[RelativeUrl] == multiset(plugins)[RelativeUrl] + 1
  {
    assert PluginList(plugins)[..|plugins|] == plugins;
  }

  function PluginsFlag(list: seq<string>): string {
    "--env PLUGINS=\"" + Join(list, " ") + "\""
  }

  /** The space-joined plugin value splits back into the list, relative-url last. */
  lemma PluginsRecoverable(plugins: seq<string>)
    requires forall i :: 0 <= i < |plugins| ==> ' ' !in plugins[i]
    ensures Split(Join(PluginList(plugins), " "), ' ') == plugins + [RelativeUrl]
  {
    SplitJoin(PluginList(plugins), ' ');
  }

  // ---------------------------------------------------------- environment

  /** The two assignments into `config.envvars`: the trimmed bridge IP, then the port. */
  function InjectEnv(env: Fields, bridgeIP: string, port: int): Fields {
    Set(Set(env, BridgeIpKey, JStr(Trim(bridgeIP))), PortKey, JNum(port))
  }

  /**
   * After the injection the bridge IP key holds the trimmed address and the
   * port key the port, whether or not they were there before; every other
   * property reads as it did.
   */
  lemma InjectEnvGet(env: Fields, bridgeIP: string, port: int)
    ensures var r := InjectEnv(env, bridgeIP, port);
      && Get(r, BridgeIpKey) == Some(JStr(Trim(bridgeIP)))
      && Get(r, PortKey) == Some(JNum(port))
      && forall k :: k != BridgeIpKey && k != PortKey ==> Get(r, k) == Get(env, k)
  {
    PropertyNamesDiffer();
  }

  /**
   * The injection keeps the caller's properties in place and appends the two
   * keys that were missing, so the object is never empty afterwards.
   */
  lemma InjectEnvKeys(env: Fields, bridgeIP: string, port: int)
    ensures Keys(InjectEnv(env, bridgeIP, port))
         == Keys(env) + (if BridgeIpKey in Keys(env) then [] else [BridgeIpKey])
                      + (if PortKey in Keys(env) then [] else [PortKey])
  {
    var e1 := Set(env, BridgeIpKey, JStr(Trim(bridgeIP)));
    var ks, k1 := Keys(env), Keys(e1);
    var first: seq<string> := if BridgeIpKey in ks then [] else [BridgeIpKey];
    var second: seq<string> := if PortKey in ks then [] else [PortKey];
    SetKeys(env, BridgeIpKey, JStr(Trim(bridgeIP)));
    assert k1 == ks + first;
    PropertyNamesDiffer();
    assert PortKey in k1 <==> PortKey in ks by {
      assert PortKey !in first;
    }
    SetKeys(e1, PortKey, JNum(port));
    assert Keys(InjectEnv(env, bridgeIP, port)) == k1 + second;
  }

  /** The injection never duplicates a property. */
  lemma InjectEnvDistinct(env: Fields, bridgeIP: string, port: int)
    requires DistinctKeys(env)
    ensures DistinctKeys(InjectEnv(env, bridgeIP, port))
  {
    var e1 := Set(env, BridgeIpKey, JStr(Trim(bridgeIP)));
    SetDistinct(env, BridgeIpKey, JStr(Trim(bridgeIP)));
    SetDistinct(e1, PortKey, JNum(port));
  }

  /** After the injection the environment object is never empty: it holds both keys. */
  lemma InjectEnvNonEmpty(env: Fields, bridgeIP: string, port: int)
    ensures |InjectEnv(env, bridgeIP, port)| >= 2
  {
    var r := InjectEnv(env, bridgeIP, port);
    InjectEnvGet(env, bridgeIP, port);
    PropertyNamesDiffer();
    KeysAt(r);
    var ks := Keys(r);
    assert BridgeIpKey in ks && PortKey in ks;
    var i :| 0 <= i < |ks| && ks[i] == BridgeIpKey;
    var j :| 0 <= j < |ks| && ks[j] == PortKey;
    assert i != j;
  }

  /** Injecting the same values a second time changes nothing. */
  lemma InjectEnvIdempotent(env: Fields, bridgeIP: string, port: int)
    ensures InjectEnv(InjectEnv(env, bridgeIP, port), bridgeIP, port) == InjectEnv(env, bridgeIP, port)
  {
    var r := InjectEnv(env, bridgeIP, port);
    InjectEnvGet(env, bridgeIP, port);
    SetPresent(r, BridgeIpKey, JStr(Trim(bridgeIP)));
    SetPresent(r, PortKey, JNum(port));
  }

  function EnvFlag(f: (string, Json)): string {
    "--env " + f.0 + "=" + TemplateText(f.1)
  }

  function EnvFlagList(env: Fields): seq<string> {
    seq(|env|, i requires 0 <= i < |env| => EnvFlag(env[i]))
  }

  /** One `--env key=value` flag per property, in property order, space-joined. */
  function EnvFlags(env: Fields): string {
    Join(EnvFlagList(env), " ")
  }

  /** A property added last adds its flag last. */
  lemma EnvFlagsAppend(env: Fields, f: (string, Json))
    requires env != []
    ensures EnvFlags(env + [f]) == EnvFlags(env) + " " + EnvFlag(f)
  {
    assert EnvFlagList(env + [f]) == EnvFlagList(env) + [EnvFlag(f)];
    JoinAppend(EnvFlagList(env), [EnvFlag(f)], " ");
  }

  /** The flag of the injected bridge IP. */
  lemma BridgeIpFlag(ip: string)
    ensures EnvFlag((BridgeIpKey, JStr(ip))) == "--env DOCKER_BRIDGE_IP=" + ip
  {
  }

  /** The flag of the injected port, in decimal. */
  lemma PortFlag(port: int)
    ensures EnvFlag((PortKey, JNum(port))) == "--env DOCKER_CONTAINER_PORT=" + Decimal(port)
  {
  }

  /** For a caller object without the two keys, the injection appends them in that order. */
  lemma InjectEnvAppends(env: Fields, bridgeIP: string, port: int)
    requires BridgeIpKey !in Keys(env) && PortKey !in Keys(env)
    ensures InjectEnv(env, bridgeIP, port) == env + [(BridgeIpKey, JStr(Trim(bridgeIP))), (PortKey, JNum(port))]
  {
    var b, p := (BridgeIpKey, JStr(Trim(bridgeIP))), (PortKey, JNum(port));
    SetAbsent(env, b.0, b.1);
    SetKeys(env, b.0, b.1);
    SetAbsent(env + [b], p.0, p.1);
    assert env + [b] + [p] == env + [b, p];
  }

  /** Two properties added last add their flags last, in that order. */
  lemma EnvFlagsAppendTwo(env: Fields, f: (string, Json), g: (string, Json))
    ensures EnvFlags(env + [f, g])
         == (if env == [] then "" else EnvFlags(env) + " ") + EnvFlag(f) + " " + EnvFlag(g)
  {
    if env == [] {
      assert env + [f, g] == [f, g];
      assert EnvFlagList([f, g]) == [EnvFlag(f), EnvFlag(g)];
      assert [EnvFlag(f), EnvFlag(g)][1..] == [EnvFlag(g)];
      var two := [EnvFlag(f), EnvFlag(g)];
      assert Join(two[1..], " ") == EnvFlag(g);
      assert Join(two, " ") == EnvFlag(f) + " " + EnvFlag(g);
      assert "" + EnvFlag(f) == EnvFlag(f);
    } else {
      assert env + [f, g] == env + [f] + [g];
      EnvFlagsAppend(env, f);
      EnvFlagsAppend(env + [f], g);
    }
  }

  /**
   * For a caller object without the two keys, the flags are the caller's
   * own, in order, followed by the bridge IP and the port.
   */
  lemma InjectedEnvFlags(env: Fields, bridgeIP: string, port: int)
    requires BridgeIpKey !in Keys(env) && PortKey !in Keys(env)
    ensures EnvFlags(InjectEnv(env, bridgeIP, port))
         == (if env == [] then "" else EnvFlags(env) + " ")
            + ("--env DOCKER_BRIDGE_IP=" + Trim(bridgeIP))
            + " " + ("--env DOCKER_CONTAINER_PORT=" + Decimal(port))
  {
    var b, p := (BridgeIpKey, JStr(Trim(bridgeIP))), (PortKey, JNum(port));
    InjectEnvAppends(env, bridgeIP, port);
    EnvFlagsAppendTwo(env, b, p);
    BridgeIpFlag(Trim(bridgeIP));
    PortFlag(port);
  }

  // ------------------------------------------------------- JSON payloads

  /** `--env NAME=` followed by the double-encoded JSON of a value. */
  function JsonEnvFlag(name: string, v: Json): string {
    "--env " + name + "=" + DoubleEncoded(v)
  }

  /** The value of a JSON flag decodes, as a string literal, to the JSON text of the value. */
  lemma JsonEnvFlagDecodes(name: string, v: Json)
    ensures var r := JsonEnvFlag(name, v);
      && |r| > 6 + |name| + 1
      && r[..6 + |name| + 1] == "--env " + name + "="
      && Unquote(r[6 + |name| + 1..]) == Some(Stringify(v))
  {
    var r := JsonEnvFlag(name, v);
    DoubleEncodedDecodes(v);
    assert r[6 + |name| + 1..] == DoubleEncoded(v);
  }

  function ApacheFlag(env: Fields): string {
    JsonEnvFlag("APACHE_ENV_VARS", JObj(env))
  }

  /** FTP_CONFIGS appears exactly when the FTP setting is truthy. */
  function FtpFragment(ftp: Option<Json>): (r: string)
    ensures r != "" <==> ftp.Some? && Truthy(ftp.value)
    ensures r != "" ==> r == JsonEnvFlag("FTP_CONFIGS", ftp.value)
  {
    if ftp.Some? && Truthy(ftp.value) then JsonEnvFlag("FTP_CONFIGS", ftp.value) else ""
  }

  // ------------------------------------------------------------------ SSH

  /** The bind mount of one key: its host path onto /app/ssh/<file name>. */
  function KeyMount(entry: Fields): string {
    "-v " + PropertyText(Get(entry, KeyPathProp)) + ":/app/ssh/" + PropertyText(Get(entry, KeyFileProp))
  }

  function KeyMounts(entries: seq<Fields>): seq<string> {
    seq(|entries|, i requires 0 <= i < |entries| => KeyMount(entries[i]))
  }

  /** `delete entry.privateKeyPath`. */
  function StripKeyPath(entry: Fields): Fields {
    Delete(entry, KeyPathProp)
  }

  function StripKeyPaths(entries: seq<Fields>): seq<Fields> {
    seq(|entries|, i requires 0 <= i < |entries| => StripKeyPath(entries[i]))
  }

  /** Stripping removes the host path from every entry and keeps everything else. */
  lemma StripKeyPathsSpec(entries: seq<Fields>)
    requires forall i :: 0 <= i < |entries| ==> DistinctKeys(entries[i])
    ensures |StripKeyPaths(entries)| == |entries|
    ensures forall i :: 0 <= i < |entries| ==>
      && Get(StripKeyPaths(entries)[i], KeyPathProp) == None
      && DistinctKeys(StripKeyPaths(entries)[i])
      && (forall k :: k != KeyPathProp ==> Get(StripKeyPaths(entries)[i], k) == Get(entries[i], k))
  {
    forall i | 0 <= i < |entries|
      ensures Get(StripKeyPaths(entries)[i], KeyPathProp) == None
      ensures DistinctKeys(StripKeyPaths(entries)[i])
    {
      DeleteRemoves(entries[i], KeyPathProp);
    }
  }

  /** SSH_CONFIGS carries the stripped entries. */
  function SshFlag(stripped: seq<Fields>): string {
    JsonEnvFlag("SSH_CONFIGS", JArr(seq(|stripped|, i requires 0 <= i < |stripped| => JObj(stripped[i]))))
  }

  /** The SSH fragment: empty without SSH entries; an empty list still counts as present. */
  function SshFragment(ssh: Option<seq<Fields>>): (r: string)
    ensures r == "" <==> ssh.None?
  {
    if ssh.Some? then SshFlag(StripKeyPaths(ssh.value)) else ""
  }

  /** The volume flags before rewriting: the caller's, then one mount per SSH entry. */
  function AllVolumes(volumes: seq<string>, ssh: Option<seq<Fields>>): seq<string> {
    if ssh.Some? then volumes + KeyMounts(ssh.value) else volumes
  }

  /**
   * Without SSH entries the volumes are the caller's; with n entries, n
   * mounts follow them in entry order, each from the entry's own path and file.
   */
  lemma AllVolumesSpec(volumes: seq<string>, ssh: Option<seq<Fields>>)
    ensures ssh.None? ==> AllVolumes(volumes, ssh) == volumes
    ensures ssh.Some? ==>
      && |AllVolumes(volumes, ssh)| == |volumes| + |ssh.value|
      && AllVolumes(volumes, ssh)[..|volumes|] == volumes
      && forall i :: 0 <= i < |ssh.value| ==>
           AllVolumes(volumes, ssh)[|volumes| + i]
           == "-v " + PropertyText(Get(ssh.value[i], KeyPathProp)) + ":/app/ssh/" + PropertyText(Get(ssh.value[i], KeyFileProp))
  {
    if ssh.Some? {
      var r := AllVolumes(volumes, ssh);
      assert r[..|volumes|] == volumes;
      forall i | 0 <= i < |ssh.value|
        ensures r[|volumes| + i] == KeyMount(ssh.value[i])
      {
        assert r[|volumes| + i] == KeyMounts(ssh.value)[i];
      }
    }
  }

  /** An entry without a host path mounts the path "undefined". */
  lemma KeyMountWithoutPath(entry: Fields)
    requires Get(entry, KeyPathProp) == None
    ensures KeyMount(entry) == "-v undefined:/app/ssh/" + PropertyText(Get(entry, KeyFileProp))
  {
  }

  /** Stripping keeps the file name and loses the path. */
  lemma StripKeyPathProps(entry: Fields)
    requires DistinctKeys(entry)
    ensures Get(StripKeyPath(entry), KeyPathProp) == None
    ensures Get(StripKeyPath(entry), KeyFileProp) == Get(entry, KeyFileProp)
  {
    DeleteRemoves(entry, KeyPathProp);
    PropertyNamesDiffer();
  }

  /** Running again on the same entry mounts "undefined": the path was deleted the first time. */
  lemma KeyMountAfterStrip(entry: Fields)
    requires DistinctKeys(entry)
    ensures KeyMount(StripKeyPath(entry)) == "-v undefined:/app/ssh/" + PropertyText(Get(entry, KeyFileProp))
  {
    StripKeyPathProps(entry);
    KeyMountWithoutPath(StripKeyPath(entry));
  }

  // ------------------------------------------------------- configuration

  /** The caller's configuration after runContainer: envvars injected, SSH paths deleted. */
  function Resolve(c: Config): (r: Config)
    ensures r.(envvars := c.envvars, ssh := c.ssh) == c
    ensures r.ssh.Some? == c.ssh.Some?
  {
    c.(envvars := InjectEnv(c.envvars, c.dockerBridgeIP, c.containerPort),
       ssh := if c.ssh.Some? then Some(StripKeyPaths(c.ssh.value)) else None)
  }

  /** Resolving keeps every object free of duplicate properties. */
  lemma ResolveWellFormed(c: Config)
    requires WellFormed(c)
    ensures WellFormed(Resolve(c))
  {
    InjectEnvDistinct(c.envvars, c.dockerBridgeIP, c.containerPort);
    if c.ssh.Some? {
      StripKeyPathsSpec(c.ssh.value);
    }
  }

  /** The changes to the configuration happen once: resolving again changes nothing. */
  lemma ResolveIdempotent(c: Config)
    requires WellFormed(c)
    ensures Resolve(Resolve(c)) == Resolve(c)
  {
    InjectEnvIdempotent(c.envvars, c.dockerBridgeIP, c.containerPort);
    if c.ssh.Some? {
      var stripped := StripKeyPaths(c.ssh.value);
      StripKeyPathsSpec(c.ssh.value);
      forall i | 0 <= i < |stripped| ensures StripKeyPath(stripped[i]) == stripped[i] {
        DeleteAbsent(stripped[i], KeyPathProp);
      }
      assert StripKeyPaths(stripped) == stripped;
    }
  }

  // --------------------------------------------------------------- command

  /** The line continuation ends each line with a space; the next is indented by eight. */
  const Gap := "         "

  /** The first four lines of the template: name, port binding and the FUSE privileges. */
  function Header(c: Config): seq<string> {
    [ "docker run -d --name=" + c.containerName + " -p " + Decimal(c.containerPort) + ":80",
      "--cap-add=SYS_ADMIN",
      "--device=/dev/fuse",
      "--security-opt apparmor=unconfined" ]
  }

  /** The lines after the synthesised fragments, ending with the network and the image. */
  function Trailer(c: Config): seq<string> {
    var ip := Trim(c.dockerBridgeIP);
    [ "--env XDEBUG_CONFIG=remote_host=\"" + ip + "\"",
      "--env DOCKER_BRIDGE_IP=\"" + ip + "\"",
      "--env DOCKER_CONTAINER_PORT=" + Decimal(c.containerPort),
      "--env INSTANCE_NAME=" + c.instanceName,
      JsonEnvFlag("ALREADY_INSTALLED_PLUGINS",
        JArr(seq(|c.alreadyInstalled|, i requires 0 <= i < |c.alreadyInstalled| => JStr(c.alreadyInstalled[i])))),
      "--env WP_LOCALE=" + c.locale,
      "--env WP_DEBUG=1",
      "--env WP_DEBUG_DISPLAY=1",
      "--env DB_HOST=aivec_wp_mysql",
      "--env DB_USER=root",
      "--env DB_PASS=root",
      "--env URL_REPLACE=\"http://localhost:" + Decimal(c.containerPort) + "\"",
      "--network=" + c.networkname + "_default",
      "wordpress_devenv_visiblevc" ]
  }

  /** The `docker run` template with the six synthesised fragments in their places. */
  function CommandLine(c: Config, v: string, dplugins: string, envs: string,
                       sshenv: string, ftpenv: string, apacheEnvVars: string): string {
    Join(Header(c) + [v, dplugins, envs, sshenv, ftpenv, apacheEnvVars] + Trailer(c), Gap)
  }

  /** The fragments runContainer synthesises from the configuration, in template order. */
  function Fragments(c: Config, toolbox: bool): seq<string> {
    var env := InjectEnv(c.envvars, c.dockerBridgeIP, c.containerPort);
    [ Join(RewriteVolumes(AllVolumes(c.volumes, c.ssh), toolbox), " "),
      PluginsFlag(PluginList(c.downloadPlugins)),
      EnvFlags(env),
      SshFragment(c.ssh),
      FtpFragment(c.ftp),
      ApacheFlag(env) ]
  }

  /** The command runContainer hands to the shell for a configuration. */
  function Command(c: Config, toolbox: bool): string {
    var f := Fragments(c, toolbox);
    CommandLine(c, f[0], f[1], f[2], f[3], f[4], f[5])
  }

  /** The command line assembled from pieces equal to the synthesised fragments is the command. */
  lemma CommandOfPieces(c: Config, toolbox: bool, v: string, dplugins: string, envs: string,
                        sshenv: string, ftpenv: string, apacheEnvVars: string)
    requires v == Join(RewriteVolumes(AllVolumes(c.volumes, c.ssh), toolbox), " ")
    requires dplugins == PluginsFlag(PluginList(c.downloadPlugins))
    requires envs == EnvFlags(InjectEnv(c.envvars, c.dockerBridgeIP, c.containerPort))
    requires sshenv == SshFragment(c.ssh) && ftpenv == FtpFragment(c.ftp)
    requires apacheEnvVars == ApacheFlag(InjectEnv(c.envvars, c.dockerBridgeIP, c.containerPort))
    ensures CommandLine(c, v, dplugins, envs, sshenv, ftpenv, apacheEnvVars) == Command(c, toolbox)
  {
  }

  /**
   * The command is the fixed header, then the synthesised fragments in
   * template order, then the fixed trailer, with only the continuation gap
   * between any two of them.
   */
  lemma CommandLayout(c: Config, toolbox: bool)
    ensures Command(c, toolbox)
         == Join(Header(c), Gap) + Gap + Join(Fragments(c, toolbox), Gap) + Gap + Join(Trailer(c), Gap)
  {
    var f := Fragments(c, toolbox);
    assert [f[0], f[1], f[2], f[3], f[4], f[5]] == f;
    JoinAppend(Header(c) + f, Trailer(c), Gap);
    JoinAppend(Header(c), f, Gap);
  }

  /** The SSH setting of one key file: its mount and its payload without the host path. */
  lemma OneKeyExample(path: string, file: string)
    ensures var entry := [(KeyPathProp, JStr(path)), (KeyFileProp, JStr(file))];
      && KeyMounts([entry]) == ["-v " + path + ":/app/ssh/" + file]
      && StripKeyPaths([entry]) == [[(KeyFileProp, JStr(file))]]
  {
    var entry := [(KeyPathProp, JStr(path)), (KeyFileProp, JStr(file))];
    assert entry[1..] == [(KeyFileProp, JStr(file))];
  }
}

/**
 * The cluster start-task generator (aztk/spark/helpers/create_cluster.py):
 * from a cluster request it builds the `docker run` command for the Spark
 * node container, the ordered node install script, and the environment
 * settings of the batch start task.
 */
module CreateCluster {
  import opened Wrappers
  import opened CommandBuilding
  import opened BatchModels

  // ---------------------------------------------------------------------
  // Request and configuration
  // ---------------------------------------------------------------------

  /** A network file share bound into the node and the container at `mountPath`. */
  datatype FileShare = FileShare(
    storageAccountName: string,
    storageAccountKey: string,
    fileSharePath: string,
    mountPath: string)

  /** A port a plugin declares; only its `internal` number is used. */
  datatype PluginPort = PluginPort(internal: int)

  datatype PluginConfiguration = PluginConfiguration(ports: seq<PluginPort>)

  datatype SharedKeyConfiguration = SharedKeyConfiguration(
    batchServiceUrl: string,
    batchAccountKey: string,
    storageAccountName: string,
    storageAccountKey: string,
    storageAccountSuffix: string)

  datatype ServicePrincipalConfiguration = ServicePrincipalConfiguration(
    tenantId: string,
    clientId: string,
    credential: string,
    batchAccountResourceId: string,
    storageAccountResourceId: string)

  /** Docker registry credentials; each field may be unset or empty. */
  datatype DockerConfiguration = DockerConfiguration(
    endpoint: Option<string>,
    username: Option<string>,
    password: Option<string>)

  /**
   * The client's secrets. Which credential kind is used is decided by
   * presence: the shared key wins when it is set.
   */
  datatype SecretsConfiguration = SecretsConfiguration(
    sharedKey: Option<SharedKeyConfiguration>,
    servicePrincipal: Option<ServicePrincipalConfiguration>,
    docker: Option<DockerConfiguration>)

  /** The values of `aztk.utils.constants` the generator reads. */
  datatype Constants = Constants(
    containerName: string,
    defaultDockerRepo: string,
    defaultDockerRepoGpu: string,
    webUiPort: int,
    workerUiPort: int,
    jobUiPort: int,
    submitLogsFile: string)

  /** Neither a shared key nor a service principal is configured. */
  datatype Error = MissingServicePrincipal

  /** Python truthiness of an optional string: set and non-empty. */
  predicate Truthy(s: Option<string>)
  {
    s.Some? && s.value != ""
  }

  // ---------------------------------------------------------------------
  // Text helpers
  // ---------------------------------------------------------------------

  /** `'{0}:{0}'.format(s)`: a host:container mapping of `s` onto itself. */
  function SelfMap(s: string): string
  {
    s + ":" + s
  }

  /** Python's `str(b)` for a boolean. */
  function BoolToString(b: bool): string
  {
    if b then "True" else "False"
  }

  function NatToString(n: nat): (s: string)
    ensures |s| >= 1
  {
    if n < 10 then ["0123456789"[n]]
    else NatToString(n / 10) + ["0123456789"[n % 10]]
  }

  /** Python's `str(i)` for an integer. */
  function IntToString(i: int): string
  {
    if i < 0 then "-" + NatToString(-i) else NatToString(i)
  }

  // ---------------------------------------------------------------------
  // The docker run command (__docker_run_cmd)
  // ---------------------------------------------------------------------

  /** The host task directory, bound into the container at the same path. */
  const TaskDirectory := "/mnt/batch/tasks"

  /** The in-container entry point, the builder's trailing argument. */
  const DockerMainEntry := "/bin/bash /mnt/batch/tasks/startup/wd/aztk/node_scripts/docker_main.sh"

  /** The docker binary: GPU nodes use the NVIDIA wrapper. */
  function DockerBinary(gpuEnabled: bool): string
  {
    if gpuEnabled then "nvidia-docker run" else "docker run"
  }

  /**
   * `NAME=$NAME`, the value of an `-e` option that passes a variable of the
   * start task's environment into the container under the same name.
   */
  function PassThrough(name: string): string
  {
    name + "=$" + name
  }

  /** The three options every container gets first. */
  function LeadingOptions(consts: Constants): seq<CommandOption>
  {
    [("--net", "host"), ("--name", consts.containerName), ("-v", SelfMap(TaskDirectory))]
  }

  /** One `-v path:path` per file share, in request order. */
  function MountVolumes(mounts: seq<FileShare>): (opts: seq<CommandOption>)
    ensures |opts| == |mounts|
  {
    seq(|mounts|, i requires 0 <= i < |mounts| => ("-v", SelfMap(mounts[i].mountPath)))
  }

  /** The working directory, the batch account and the shared-key credentials, passed into the container. */
  function AccountEnvironmentOptions(): seq<CommandOption>
  {
    [ ("-e", "AZTK_WORKING_DIR=/mnt/batch/tasks/startup/wd"),
      ("-e", PassThrough("AZ_BATCH_ACCOUNT_NAME")),
      ("-e", PassThrough("BATCH_ACCOUNT_KEY")),
      ("-e", PassThrough("BATCH_SERVICE_URL")),
      ("-e", PassThrough("STORAGE_ACCOUNT_NAME")),
      ("-e", PassThrough("STORAGE_ACCOUNT_KEY")),
      ("-e", PassThrough("STORAGE_ACCOUNT_SUFFIX")) ]
  }

  /** The service-principal credentials, passed into the container. */
  function ServicePrincipalEnvironmentOptions(): seq<CommandOption>
  {
    [ ("-e", PassThrough("SP_TENANT_ID")),
      ("-e", PassThrough("SP_CLIENT_ID")),
      ("-e", PassThrough("SP_CREDENTIAL")),
      ("-e", PassThrough("SP_BATCH_RESOURCE_ID")),
      ("-e", PassThrough("SP_STORAGE_RESOURCE_ID")) ]
  }

  /** The pool, node and placement flags, passed into the container. */
  function NodeEnvironmentOptions(): seq<CommandOption>
  {
    [ ("-e", PassThrough("AZ_BATCH_POOL_ID")),
      ("-e", PassThrough("AZ_BATCH_NODE_ID")),
      ("-e", PassThrough("AZTK_WORKER_ON_MASTER")),
      ("-e", PassThrough("AZTK_MIXED_MODE")),
      ("-e", PassThrough("AZ_BATCH_NODE_IS_DEDICATED")) ]
  }

  /** The Spark ports and names, passed into the container. */
  function SparkEnvironmentOptions(): seq<CommandOption>
  {
    [ ("-e", PassThrough("SPARK_WEB_UI_PORT")),
      ("-e", PassThrough("SPARK_WORKER_UI_PORT")),
      ("-e", PassThrough("SPARK_CONTAINER_NAME")),
      ("-e", PassThrough("SPARK_SUBMIT_LOGS_FILE")),
      ("-e", PassThrough("SPARK_JOB_UI_PORT")) ]
  }

  /** The node's role and the master's address, computed on the node itself. */
  function TopologyEnvironmentOptions(): seq<CommandOption>
  {
    [ ("-e", PassThrough("AZTK_IS_MASTER")),
      ("-e", PassThrough("AZTK_IS_WORKER")),
      ("-e", PassThrough("AZTK_MASTER_IP")) ]
  }

  /** Every fixed `-e` option, in the order they are added. */
  function EnvironmentOptions(): seq<CommandOption>
  {
    AccountEnvironmentOptions() + ServicePrincipalEnvironmentOptions() + NodeEnvironmentOptions()
    + SparkEnvironmentOptions() + TopologyEnvironmentOptions()
  }

  /** The published service ports, each mapped to itself. */
  function FixedPorts(): seq<CommandOption>
  {
    [ ("-p", "8080:8080"),    // Spark master UI
      ("-p", "7077:7077"),    // Spark master
      ("-p", "7337:7337"),    // Spark shuffle service
      ("-p", "4040:4040"),    // job UI
      ("-p", "18080:18080"),  // Spark history server UI
      ("-p", "3022:3022") ]   // docker SSH
  }

  /** One `-p i:i` per port of one plugin, in declaration order. */
  function PortOptions(ports: seq<PluginPort>): (opts: seq<CommandOption>)
    ensures |opts| == |ports|
  {
    seq(|ports|, i requires 0 <= i < |ports| => ("-p", SelfMap(IntToString(ports[i].internal))))
  }

  /** The port options of every plugin, plugin by plugin. */
  function PluginPortOptions(plugins: seq<PluginConfiguration>): seq<CommandOption>
  {
    if plugins == [] then []
    else PluginPortOptions(plugins[..|plugins| - 1]) + PortOptions(plugins[|plugins| - 1].ports)
  }

  /** The full option list of the container launch, in the order the options are added. */
  function DockerRunOptions(consts: Constants, dockerRepo: string, mounts: seq<FileShare>,
                            plugins: seq<PluginConfiguration>): seq<CommandOption>
  {
    LeadingOptions(consts) + MountVolumes(mounts) + EnvironmentOptions()
    + FixedPorts() + PluginPortOptions(plugins) + [("-d", dockerRepo)]
  }

  /** The container launch command as the builder holds it once complete. */
  function DockerRun(consts: Constants, dockerRepo: string, gpuEnabled: bool, mounts: seq<FileShare>,
                     plugins: seq<PluginConfiguration>): Command
  {
    Command(DockerBinary(gpuEnabled), DockerRunOptions(consts, dockerRepo, mounts, plugins), Some(DockerMainEntry))
  }

  // The fixed options are added in the source's order, in groups that keep
  // each proof small.

  method AddAccountEnvironmentOptions(cmd: CommandBuilder)
    modifies cmd
    ensures cmd.options == old(cmd.options) + AccountEnvironmentOptions()
    ensures cmd.base == old(cmd.base) && cmd.argument == old(cmd.argument)
  {
    cmd.AddOption("-e", "AZTK_WORKING_DIR=/mnt/batch/tasks/startup/wd");
    cmd.AddOption("-e", PassThrough("AZ_BATCH_ACCOUNT_NAME"));
    cmd.AddOption("-e", PassThrough("BATCH_ACCOUNT_KEY"));
    cmd.AddOption("-e", PassThrough("BATCH_SERVICE_URL"));
    cmd.AddOption("-e", PassThrough("STORAGE_ACCOUNT_NAME"));
    cmd.AddOption("-e", PassThrough("STORAGE_ACCOUNT_KEY"));
    cmd.AddOption("-e", PassThrough("STORAGE_ACCOUNT_SUFFIX"));
  }

  method AddServicePrincipalEnvironmentOptions(cmd: CommandBuilder)
    modifies cmd
    ensures cmd.options == old(cmd.options) + ServicePrincipalEnvironmentOptions()
    ensures cmd.base == old(cmd.base) && cmd.argument == old(cmd.argument)
  {
    cmd.AddOption("-e", PassThrough("SP_TENANT_ID"));
    cmd.AddOption("-e", PassThrough("SP_CLIENT_ID"));
    cmd.AddOption("-e", PassThrough("SP_CREDENTIAL"));
    cmd.AddOption("-e", PassThrough("SP_BATCH_RESOURCE_ID"));
    cmd.AddOption("-e", PassThrough("SP_STORAGE_RESOURCE_ID"));
  }

  method AddNodeEnvironmentOptions(cmd: CommandBuilder)
    modifies cmd
    ensures cmd.options == old(cmd.options) + NodeEnvironmentOptions()
    ensures cmd.base == old(cmd.base) && cmd.argument == old(cmd.argument)
  {
    cmd.AddOption("-e", PassThrough("AZ_BATCH_POOL_ID"));
    cmd.AddOption("-e", PassThrough("AZ_BATCH_NODE_ID"));
    cmd.AddOption("-e", PassThrough("AZTK_WORKER_ON_MASTER"));
    cmd.AddOption("-e", PassThrough("AZTK_MIXED_MODE"));
    cmd.AddOption("-e", PassThrough("AZ_BATCH_NODE_IS_DEDICATED"));
  }

  method AddSparkEnvironmentOptions(cmd: CommandBuilder)
    modifies cmd
    ensures cmd.options == old(cmd.options) + SparkEnvironmentOptions()
    ensures cmd.base == old(cmd.base) && cmd.argument == old(cmd.argument)
  {
    cmd.AddOption("-e", PassThrough("SPARK_WEB_UI_PORT"));
    cmd.AddOption("-e", PassThrough("SPARK_WORKER_UI_PORT"));
    cmd.AddOption("-e", PassThrough("SPARK_CONTAINER_NAME"));
    cmd.AddOption("-e", PassThrough("SPARK_SUBMIT_LOGS_FILE"));
    cmd.AddOption("-e", PassThrough("SPARK_JOB_UI_PORT"));
  }

  method AddTopologyEnvironmentOptions(cmd: CommandBuilder)
    modifies cmd
    ensures cmd.options == old(cmd.options) + TopologyEnvironmentOptions()
    ensures cmd.base == old(cmd.base) && cmd.argument == old(cmd.argument)
  {
    cmd.AddOption("-e", PassThrough("AZTK_IS_MASTER"));
    cmd.AddOption("-e", PassThrough("AZTK_IS_WORKER"));
    cmd.AddOption("-e", PassThrough("AZTK_MASTER_IP"));
  }

  /** Adds every fixed `-e` option, group by group. */
  method AddEnvironmentOptions(cmd: CommandBuilder)
    modifies cmd
    ensures cmd.options == old(cmd.options) + EnvironmentOptions()
    ensures cmd.base == old(cmd.base) && cmd.argument == old(cmd.argument)
  {
    AddAccountEnvironmentOptions(cmd);
    AddServicePrincipalEnvironmentOptions(cmd);
    AddNodeEnvironmentOptions(cmd);
    AddSparkEnvironmentOptions(cmd);
    AddTopologyEnvironmentOptions(cmd);
  }

  method AddFixedPorts(cmd: CommandBuilder)
    modifies cmd
    ensures cmd.options == old(cmd.options) + FixedPorts()
    ensures cmd.base == old(cmd.base) && cmd.argument == old(cmd.argument)
  {
    cmd.AddOption("-p", "8080:8080");    // Spark master UI
    cmd.AddOption("-p", "7077:7077");    // Spark master
    cmd.AddOption("-p", "7337:7337");    // Spark shuffle service
    cmd.AddOption("-p", "4040:4040");    // job UI
    cmd.AddOption("-p", "18080:18080");  // Spark history server UI
    cmd.AddOption("-p", "3022:3022");    // docker SSH
  }

  /** Adds one `-v path:path` option per file share, in request order. */
  method AddMountVolumes(cmd: CommandBuilder, fileMounts: seq<FileShare>)
    modifies cmd
    ensures cmd.options == old(cmd.options) + MountVolumes(fileMounts)
    ensures cmd.base == old(cmd.base) && cmd.argument == old(cmd.argument)
  {
    for i := 0 to |fileMounts|
      invariant cmd.base == old(cmd.base) && cmd.argument == old(cmd.argument)
      invariant cmd.options == old(cmd.options) + MountVolumes(fileMounts[..i])
    {
      cmd.AddOption("-v", SelfMap(fileMounts[i].mountPath));
      assert MountVolumes(fileMounts[..i + 1]) == MountVolumes(fileMounts[..i]) + [("-v", SelfMap(fileMounts[i].mountPath))];
    }
    assert fileMounts[..|fileMounts|] == fileMounts;
  }

  /** Adds one `-p i:i` option per declared plugin port, plugin by plugin and port by port. */
  method AddPluginPorts(cmd: CommandBuilder, plugins: seq<PluginConfiguration>)
    modifies cmd
    ensures cmd.options == old(cmd.options) + PluginPortOptions(plugins)
    ensures cmd.base == old(cmd.base) && cmd.argument == old(cmd.argument)
  {
    for i := 0 to |plugins|
      invariant cmd.base == old(cmd.base) && cmd.argument == old(cmd.argument)
      invariant cmd.options == old(cmd.options) + PluginPortOptions(plugins[..i])
    {
      var ports := plugins[i].ports;
      for j := 0 to |ports|
        invariant cmd.base == old(cmd.base) && cmd.argument == old(cmd.argument)
        invariant cmd.options == old(cmd.options) + PluginPortOptions(plugins[..i]) + PortOptions(ports[..j])
      {
        cmd.AddOption("-p", SelfMap(IntToString(ports[j].internal)));
        assert PortOptions(ports[..j + 1]) == PortOptions(ports[..j]) + [("-p", SelfMap(IntToString(ports[j].internal)))];
      }
      assert ports[..|ports|] == ports;
      assert plugins[..i + 1][..i] == plugins[..i];
    }
    assert plugins[..|plugins|] == plugins;
  }

  /**
   * Builds the `docker run` command for the Spark node container with a
   * command builder, option by option.
   */
  method DockerRunCmd(consts: Constants, dockerRepo: string, gpuEnabled: bool,
                      fileMounts: seq<FileShare>, plugins: seq<PluginConfiguration>)
    returns (c: Command)
    ensures c == DockerRun(consts, dockerRepo, gpuEnabled, fileMounts, plugins)
  {
    var cmd: CommandBuilder;
    if gpuEnabled {
      cmd := new CommandBuilder("nvidia-docker run");
    } else {
      cmd := new CommandBuilder("docker run");
    }
    cmd.AddOption("--net", "host");
    cmd.AddOption("--name", consts.containerName);
    cmd.AddOption("-v", SelfMap(TaskDirectory));
    assert cmd.options == LeadingOptions(consts);
    AddMountVolumes(cmd, fileMounts);
    AddEnvironmentOptions(cmd);
    AddFixedPorts(cmd);
    AddPluginPorts(cmd, plugins);
    cmd.AddOption("-d", dockerRepo);
    cmd.AddArgument(DockerMainEntry);
    c := cmd.Snapshot();
  }

  // ---------------------------------------------------------------------
  // The node install script (__cluster_install_cmd)
  // ---------------------------------------------------------------------

  /**
   * The image the node runs: the caller's repository when it is set and
   * non-empty, otherwise the GPU or the CPU default.
   */
  function ResolveDockerRepo(consts: Constants, gpuEnabled: bool, dockerRepo: Option<string>): (repo: string)
    ensures Truthy(dockerRepo) ==> repo == dockerRepo.value
    ensures !Truthy(dockerRepo) ==> repo == (if gpuEnabled then consts.defaultDockerRepoGpu else consts.defaultDockerRepo)
    ensures consts.defaultDockerRepo != "" && consts.defaultDockerRepoGpu != "" ==> repo != ""
  {
    var defaultDockerRepo := if !gpuEnabled then consts.defaultDockerRepo else consts.defaultDockerRepoGpu;
    if Truthy(dockerRepo) then dockerRepo.value else defaultDockerRepo
  }

  /** A text followed by another: the first is a prefix, the second what follows it. */
  lemma Concat(a: string, b: string)
    ensures a <= a + b && (a + b)[|a|..] == b
  {
  }

  /** Three texts in a row: each can be read back at its position. */
  lemma ConcatThree(a: string, b: string, c: string)
    ensures a <= a + b + c
    ensures (a + b + c)[|a|..|a| + |b|] == b && (a + b + c)[|a| + |b|..] == c
  {
    assert (a + b + c)[|a|..] == b + c;
  }

  /** Creates the share's mount point on the node; its one argument is the mount path. */
  function MkdirStatement(mount: FileShare): (s: string)
    ensures "mkdir -p " <= s && s[|"mkdir -p "|..] == mount.mountPath
  {
    Concat("mkdir -p ", mount.mountPath);
    "mkdir -p " + mount.mountPath
  }

  /**
   * Mounts the share over SMB 3.0 at its mount path, with the storage
   * account's name and key in the mount options.
   */
  function MountStatement(mount: FileShare): (s: string)
    ensures var device := "//" + mount.storageAccountName + ".file.core.windows.net/" + mount.fileSharePath;
            var head := "mount -t cifs " + device + " " + mount.mountPath + " -o ";
            && head <= s
            && s[|head|..] == "vers=3.0,username=" + mount.storageAccountName + ",password=" + mount.storageAccountKey
                              + ",dir_mode=0777,file_mode=0777,sec=ntlmssp"
  {
    var device := "//" + mount.storageAccountName + ".file.core.windows.net/" + mount.fileSharePath;
    var head := "mount -t cifs " + device + " " + mount.mountPath + " -o ";
    var options := "vers=3.0,username=" + mount.storageAccountName + ",password=" + mount.storageAccountKey
                   + ",dir_mode=0777,file_mode=0777,sec=ntlmssp";
    Concat(head, options);
    head + options
  }

  /** The two statements of every share, share by share. */
  function MountStatements(mounts: seq<FileShare>): seq<string>
  {
    if mounts == [] then []
    else MountStatements(mounts[..|mounts| - 1])
         + [MkdirStatement(mounts[|mounts| - 1]), MountStatement(mounts[|mounts| - 1])]
  }

  /**
   * Runs `setup_node.sh` with the container name, the GPU flag and the image
   * as its first three arguments and the whole `docker run` command, in
   * double quotes, as its last.
   */
  function SetupNodeInvocation(consts: Constants, gpuEnabled: bool, dockerRepo: string, dockerRun: string): (s: string)
    ensures var script := "/bin/bash $AZ_BATCH_TASK_WORKING_DIR/aztk/node_scripts/setup_node.sh ";
            var args := consts.containerName + " " + BoolToString(gpuEnabled) + " " + dockerRepo + " ";
            && |s| == |script| + |args| + |dockerRun| + 2
            && script <= s
            && s[|script|..|script| + |args|] == args
            && s[|script| + |args|..] == "\"" + dockerRun + "\""
  {
    var script := "/bin/bash $AZ_BATCH_TASK_WORKING_DIR/aztk/node_scripts/setup_node.sh ";
    var args := consts.containerName + " " + BoolToString(gpuEnabled) + " " + dockerRepo + " ";
    var quoted := "\"" + dockerRun + "\"";
    ConcatThree(script, args, quoted);
    script + args + quoted
  }

  /**
   * The seven statements that follow the mounts: four package steps, the
   * unpacking of the uploaded archive, making `setup_node.sh` executable,
   * and running it.
   */
  function SetupStatements(consts: Constants, zipResourceFile: ResourceFile, gpuEnabled: bool,
                           dockerRepo: string, dockerRun: string): (ss: seq<string>)
    ensures |ss| == 7
    ensures ss[..4] == ["apt-get -y clean", "apt-get -y update", "apt-get install --fix-missing", "apt-get -y install unzip"]
    ensures ss[4] == "unzip $AZ_BATCH_TASK_WORKING_DIR/" + zipResourceFile.filePath
    ensures ss[5] == "chmod 777 $AZ_BATCH_TASK_WORKING_DIR/aztk/node_scripts/setup_node.sh"
    ensures ss[6] == SetupNodeInvocation(consts, gpuEnabled, dockerRepo, dockerRun)
  {
    var packages := ["apt-get -y clean", "apt-get -y update", "apt-get install --fix-missing", "apt-get -y install unzip"];
    var setup := [ "unzip $AZ_BATCH_TASK_WORKING_DIR/" + zipResourceFile.filePath,
                   "chmod 777 $AZ_BATCH_TASK_WORKING_DIR/aztk/node_scripts/setup_node.sh",
                   SetupNodeInvocation(consts, gpuEnabled, dockerRepo, dockerRun) ];
    assert (packages + setup)[..4] == packages;
    packages + setup
  }

  /**
   * The install script of a request; `render` is the builder's text
   * rendering, which is not part of this model.
   */
  function InstallScript(consts: Constants, zipResourceFile: ResourceFile, gpuEnabled: bool,
                         dockerRepo: Option<string>, plugins: seq<PluginConfiguration>,
                         mounts: seq<FileShare>, render: Command -> string): seq<string>
  {
    var repo := ResolveDockerRepo(consts, gpuEnabled, dockerRepo);
    MountStatements(mounts)
    + SetupStatements(consts, zipResourceFile, gpuEnabled, repo, render(DockerRun(consts, repo, gpuEnabled, mounts, plugins)))
  }

  /** Builds the ordered statements of the node's start task. */
  method ClusterInstallCmd(consts: Constants, render: Command -> string,
                           zipResourceFile: ResourceFile, gpuEnabled: bool,
                           dockerRepo: Option<string> := None, plugins: seq<PluginConfiguration> := [],
                           fileMounts: seq<FileShare> := [])
    returns (commands: seq<string>)
    ensures commands == InstallScript(consts, zipResourceFile, gpuEnabled, dockerRepo, plugins, fileMounts, render)
  {
    var repo := ResolveDockerRepo(consts, gpuEnabled, dockerRepo);

    var shares: seq<string> := [];
    for i := 0 to |fileMounts|
      invariant shares == MountStatements(fileMounts[..i])
    {
      shares := shares + [MkdirStatement(fileMounts[i])];
      shares := shares + [MountStatement(fileMounts[i])];
      assert fileMounts[..i + 1][..i] == fileMounts[..i];
    }
    assert fileMounts[..|fileMounts|] == fileMounts;

    var dockerRun := DockerRunCmd(consts, repo, gpuEnabled, fileMounts, plugins);
    var setup := SetupStatements(consts, zipResourceFile, gpuEnabled, repo, render(dockerRun));
    commands := shares + setup;
  }

  // ---------------------------------------------------------------------
  // The start task's environment
  // ---------------------------------------------------------------------

  const SharedKeyNames := ["BATCH_SERVICE_URL", "BATCH_ACCOUNT_KEY", "STORAGE_ACCOUNT_NAME",
                           "STORAGE_ACCOUNT_KEY", "STORAGE_ACCOUNT_SUFFIX"]
  const ServicePrincipalNames := ["SP_TENANT_ID", "SP_CLIENT_ID", "SP_CREDENTIAL",
                                  "SP_BATCH_RESOURCE_ID", "SP_STORAGE_RESOURCE_ID"]
  const SparkNames := ["SPARK_WEB_UI_PORT", "SPARK_WORKER_UI_PORT", "SPARK_JOB_UI_PORT",
                       "SPARK_CONTAINER_NAME", "SPARK_SUBMIT_LOGS_FILE"]
  const DockerCredentialNames := ["DOCKER_ENDPOINT", "DOCKER_USERNAME", "DOCKER_PASSWORD"]
  const AztkNames := ["AZTK_MIXED_MODE", "AZTK_WORKER_ON_MASTER"]

  /** The AZTK flags: the mixed-mode flag verbatim, worker-on-master defaulting to false. */
  function AztkEnvironment(workerOnMaster: Option<bool>, mixedMode: bool): (envs: seq<EnvironmentSetting>)
    ensures Names(envs) == AztkNames
    ensures Sets(envs, "AZTK_MIXED_MODE", Flag(mixedMode))
    ensures Sets(envs, "AZTK_WORKER_ON_MASTER", Flag(workerOnMaster == Some(true)))
  {
    [EnvironmentSetting("AZTK_MIXED_MODE", Flag(mixedMode))]
    + if workerOnMaster.Some? then
        [EnvironmentSetting("AZTK_WORKER_ON_MASTER", Flag(workerOnMaster.value))]
      else
        [EnvironmentSetting("AZTK_WORKER_ON_MASTER", Flag(false))]
  }

  /** Where a docker credential name stands among the three. */
  function DockerCredentialRank(name: string): nat
  {
    if name == "DOCKER_ENDPOINT" then 0 else if name == "DOCKER_USERNAME" then 1 else 2
  }

  /** The registry credentials, each only when it is set and non-empty. */
  function DockerCredentials(docker: Option<DockerConfiguration>): (creds: seq<EnvironmentSetting>)
    ensures |creds| <= 3
    ensures forall k :: 0 <= k < |creds| ==> creds[k].name in DockerCredentialNames
    ensures forall i, j :: 0 <= i < j < |creds| ==>
              DockerCredentialRank(creds[i].name) < DockerCredentialRank(creds[j].name)
    ensures docker.None? ==> creds == []
    ensures docker.Some? ==>
              (Truthy(docker.value.endpoint) ==> Sets(creds, "DOCKER_ENDPOINT", Text(docker.value.endpoint.value)))
              && (!Truthy(docker.value.endpoint) ==> "DOCKER_ENDPOINT" !in Names(creds))
    ensures docker.Some? ==>
              (Truthy(docker.value.username) ==> Sets(creds, "DOCKER_USERNAME", Text(docker.value.username.value)))
              && (!Truthy(docker.value.username) ==> "DOCKER_USERNAME" !in Names(creds))
    ensures docker.Some? ==>
              (Truthy(docker.value.password) ==> Sets(creds, "DOCKER_PASSWORD", Text(docker.value.password.value)))
              && (!Truthy(docker.value.password) ==> "DOCKER_PASSWORD" !in Names(creds))
  {
    match docker
    case None => []
    case Some(d) =>
      (if Truthy(d.endpoint) then [EnvironmentSetting("DOCKER_ENDPOINT", Text(d.endpoint.value))] else [])
      + (if Truthy(d.username) then [EnvironmentSetting("DOCKER_USERNAME", Text(d.username.value))] else [])
      + (if Truthy(d.password) then [EnvironmentSetting("DOCKER_PASSWORD", Text(d.password.value))] else [])
  }

  /** Builds the AZTK flags by appending to an initially empty list. */
  method GetAztkEnvironment(workerOnMaster: Option<bool>, mixedMode: bool) returns (envs: seq<EnvironmentSetting>)
    ensures envs == AztkEnvironment(workerOnMaster, mixedMode)
  {
    envs := [];
    envs := envs + [EnvironmentSetting("AZTK_MIXED_MODE", Flag(mixedMode))];
    if workerOnMaster.Some? {
      envs := envs + [EnvironmentSetting("AZTK_WORKER_ON_MASTER", Flag(workerOnMaster.value))];
    } else {
      envs := envs + [EnvironmentSetting("AZTK_WORKER_ON_MASTER", Flag(false))];
    }
  }

  /** Builds the registry credentials by appending each truthy field in turn. */
  method GetDockerCredentials(docker: Option<DockerConfiguration>) returns (creds: seq<EnvironmentSetting>)
    ensures creds == DockerCredentials(docker)
  {
    creds := [];
    if docker.Some? {
      var d := docker.value;
      if Truthy(d.endpoint) {
        creds := creds + [EnvironmentSetting("DOCKER_ENDPOINT", Text(d.endpoint.value))];
      }
      if Truthy(d.username) {
        creds := creds + [EnvironmentSetting("DOCKER_USERNAME", Text(d.username.value))];
      }
      if Truthy(d.password) {
        creds := creds + [EnvironmentSetting("DOCKER_PASSWORD", Text(d.password.value))];
      }
    }
  }

  /**
   * The batch and storage credentials: the shared key when one is
   * configured, otherwise the service principal; neither is an error.
   */
  function SecretsEnv(secrets: SecretsConfiguration): (r: Result<seq<EnvironmentSetting>, Error>)
    ensures r.Ok? <==> secrets.sharedKey.Some? || secrets.servicePrincipal.Some?
    ensures r.Ok? && secrets.sharedKey.Some? ==> Names(r.value) == SharedKeyNames
    ensures r.Ok? && secrets.sharedKey.None? ==> Names(r.value) == ServicePrincipalNames
    ensures secrets.sharedKey.Some? ==>
              var sk := secrets.sharedKey.value;
              Sets(r.value, "BATCH_SERVICE_URL", Text(sk.batchServiceUrl))
              && Sets(r.value, "BATCH_ACCOUNT_KEY", Text(sk.batchAccountKey))
              && Sets(r.value, "STORAGE_ACCOUNT_NAME", Text(sk.storageAccountName))
              && Sets(r.value, "STORAGE_ACCOUNT_KEY", Text(sk.storageAccountKey))
              && Sets(r.value, "STORAGE_ACCOUNT_SUFFIX", Text(sk.storageAccountSuffix))
    ensures secrets.sharedKey.None? && secrets.servicePrincipal.Some? ==>
              var sp := secrets.servicePrincipal.value;
              Sets(r.value, "SP_TENANT_ID", Text(sp.tenantId))
              && Sets(r.value, "SP_CLIENT_ID", Text(sp.clientId))
              && Sets(r.value, "SP_CREDENTIAL", Text(sp.credential))
              && Sets(r.value, "SP_BATCH_RESOURCE_ID", Text(sp.batchAccountResourceId))
              && Sets(r.value, "SP_STORAGE_RESOURCE_ID", Text(sp.storageAccountResourceId))
  {
    match secrets.sharedKey
    case Some(sk) =>
      Ok([ EnvironmentSetting("BATCH_SERVICE_URL", Text(sk.batchServiceUrl)),
           EnvironmentSetting("BATCH_ACCOUNT_KEY", Text(sk.batchAccountKey)),
           EnvironmentSetting("STORAGE_ACCOUNT_NAME", Text(sk.storageAccountName)),
           EnvironmentSetting("STORAGE_ACCOUNT_KEY", Text(sk.storageAccountKey)),
           EnvironmentSetting("STORAGE_ACCOUNT_SUFFIX", Text(sk.storageAccountSuffix)) ])
    case None =>
      match secrets.servicePrincipal
      case Some(sp) =>
        Ok([ EnvironmentSetting("SP_TENANT_ID", Text(sp.tenantId)),
             EnvironmentSetting("SP_CLIENT_ID", Text(sp.clientId)),
             EnvironmentSetting("SP_CREDENTIAL", Text(sp.credential)),
             EnvironmentSetting("SP_BATCH_RESOURCE_ID", Text(sp.batchAccountResourceId)),
             EnvironmentSetting("SP_STORAGE_RESOURCE_ID", Text(sp.storageAccountResourceId)) ])
      // the source dereferences the missing service principal and raises
      case None => Err(MissingServicePrincipal)
  }

  /** The Spark UI ports and names every node receives. */
  function SparkSettings(consts: Constants): (envs: seq<EnvironmentSetting>)
    ensures Names(envs) == SparkNames
    ensures Sets(envs, "SPARK_WEB_UI_PORT", Number(consts.webUiPort))
    ensures Sets(envs, "SPARK_WORKER_UI_PORT", Number(consts.workerUiPort))
    ensures Sets(envs, "SPARK_JOB_UI_PORT", Number(consts.jobUiPort))
    ensures Sets(envs, "SPARK_CONTAINER_NAME", Text(consts.containerName))
    ensures Sets(envs, "SPARK_SUBMIT_LOGS_FILE", Text(consts.submitLogsFile))
  {
    [ EnvironmentSetting("SPARK_WEB_UI_PORT", Number(consts.webUiPort)),
      EnvironmentSetting("SPARK_WORKER_UI_PORT", Number(consts.workerUiPort)),
      EnvironmentSetting("SPARK_JOB_UI_PORT", Number(consts.jobUiPort)),
      EnvironmentSetting("SPARK_CONTAINER_NAME", Text(consts.containerName)),
      EnvironmentSetting("SPARK_SUBMIT_LOGS_FILE", Text(consts.submitLogsFile)) ]
  }

  /** The start task's environment: secrets, Spark settings, registry credentials, AZTK flags. */
  function StartTaskEnvironment(consts: Constants, secrets: SecretsConfiguration,
                                workerOnMaster: Option<bool>, mixedMode: bool)
    : (r: Result<seq<EnvironmentSetting>, Error>)
    ensures r.Ok? <==> secrets.sharedKey.Some? || secrets.servicePrincipal.Some?
    ensures r.Ok? ==> |r.value| == 12 + |DockerCredentials(secrets.docker)|
  {
    match SecretsEnv(secrets)
    case Err(e) => Err(e)
    case Ok(secretsEnv) =>
      Ok(secretsEnv + SparkSettings(consts) + DockerCredentials(secrets.docker)
         + AztkEnvironment(workerOnMaster, mixedMode))
  }

  // ---------------------------------------------------------------------
  // The start task (generate_cluster_start_task)
  // ---------------------------------------------------------------------

  /**
   * The start task of the pool: the wrapped install script, the uploaded
   * archive, the environment, the pool administrator identity, and a wait
   * for success. `render` and `wrap` are the builder's rendering and the
   * shell wrapping, which are not part of this model. Omitted arguments take
   * the source's defaults: no repository, no shares, no plugins, mixed mode
   * off and worker-on-master on.
   */
  method GenerateClusterStartTask(
    consts: Constants, render: Command -> string, wrap: seq<string> -> string,
    secrets: SecretsConfiguration, zipResourceFile: ResourceFile, gpuEnabled: bool,
    dockerRepo: Option<string> := None, fileShares: seq<FileShare> := [],
    plugins: seq<PluginConfiguration> := [], mixedMode: bool := false,
    workerOnMaster: Option<bool> := Some(true))
    returns (r: Result<StartTask, Error>)
    ensures r.Ok? <==> secrets.sharedKey.Some? || secrets.servicePrincipal.Some?
    ensures r.Ok? ==>
              r.value.commandLine == wrap(InstallScript(consts, zipResourceFile, gpuEnabled, dockerRepo, plugins, fileShares, render))
              && r.value.resourceFiles == [zipResourceFile]
              && r.value.environmentSettings == StartTaskEnvironment(consts, secrets, workerOnMaster, mixedMode).value
              && r.value.userIdentity == PoolAdminUserIdentity
              && r.value.waitForSuccess
  {
    var resourceFiles := [zipResourceFile];
    var secretsEnv := SecretsEnv(secrets);
    if secretsEnv.Err? {
      return Err(secretsEnv.error);
    }
    var creds := GetDockerCredentials(secrets.docker);
    var aztkEnv := GetAztkEnvironment(workerOnMaster, mixedMode);
    var environmentSettings := secretsEnv.value + SparkSettings(consts) + creds + aztkEnv;
    var command := ClusterInstallCmd(consts, render, zipResourceFile, gpuEnabled, dockerRepo, plugins, fileShares);
    r := Ok(StartTask(wrap(command), resourceFiles, environmentSettings, PoolAdminUserIdentity, true));
  }
}

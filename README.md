# Cluster start-task generator

A Dafny model of the AZTK cluster start-task generator
(`aztk/spark/helpers/create_cluster.py`). From a cluster request, the
generator builds three things:

- the `docker run` command that launches the Spark node container;
- the ordered install script that prepares the node and runs `setup_node.sh`;
- the environment settings of the batch start task.

The request carries a GPU flag, an optional docker repository, file-share
mounts, plugin ports, the mixed-mode flag, the worker-on-master flag and the
client's secrets.

The project has five modules:

- `Wrappers` (`wrappers.dfy`): `Option` and `Result`.
- `CommandBuilding` (`command_builder.dfy`): the command builder as a class.
  - Its fields are a base command, the ordered `(flag, value)` options and an
    optional trailing argument.
  - Options are only appended and are never escaped.
  - `FlagValues` selects the values given with one flag.
- `BatchModels` (`batch_models.dfy`): the batch records the generator
  produces (environment setting, resource file, user identity, start task)
  and the pool administrator identity.
- `CreateCluster` (`create_cluster.dfy`): the generator itself.
  - The imperative parts are methods proved against specification
    functions. These are the builder calls with their loops over shares and
    plugin ports, the install script's share loop, and the conditional
    appends that build the AZTK flags and the registry credentials.
  - The pure parts are functions: secrets selection, the Spark settings and
    the environment concatenation.
- `ClusterProperties` (`cluster_properties.dfy`): what the generator
  promises, stated and proved over those functions.
  - The volume and port options of the launch command, and the position of
    each option.
  - The layout of the install script.
  - That secrets are exclusive.
  - That environment names are distinct.
  - That every start-task setting except the registry credentials has a
    `-e NAME=$NAME` option among the launch options.

The values of `aztk.utils.constants` are a `Constants` record passed in.
The text rendering of the builder (`to_str`) and the shell wrapping of the
script (`helpers.wrap_commands_in_shell`) are passed in as the functions
`render` and `wrap`.

## Model

| member | source | states |
|---|---|---|
| CommandBuilding.CommandBuilder.constructor | aztk/spark/helpers/create_cluster.py:26-29 | a new builder holds the given binary, no options and no argument |
| CommandBuilding.CommandBuilder.AddOption | aztk/spark/helpers/create_cluster.py:30-32 | appends exactly one `(flag, value)` pair, verbatim, after all earlier ones; base and argument unchanged |
| CommandBuilding.CommandBuilder.AddArgument | aztk/spark/helpers/create_cluster.py:79 | sets the trailing argument; base and options unchanged |
| CreateCluster.AddMountVolumes | aztk/spark/helpers/create_cluster.py:34-36 | the share loop appends one `-v path:path` per share, in request order, and nothing else |
| CreateCluster.AddAccountEnvironmentOptions | aztk/spark/helpers/create_cluster.py:38-44 | appends the working-directory option and the six batch and storage account pass-throughs, in source order; base and argument unchanged |
| CreateCluster.AddServicePrincipalEnvironmentOptions | aztk/spark/helpers/create_cluster.py:45-49 | appends the five `SP_*` pass-throughs, in source order; base and argument unchanged |
| CreateCluster.AddNodeEnvironmentOptions | aztk/spark/helpers/create_cluster.py:50-55 | appends the pool, node, worker-on-master, mixed-mode and dedicated-node pass-throughs, in source order; base and argument unchanged |
| CreateCluster.AddSparkEnvironmentOptions | aztk/spark/helpers/create_cluster.py:56-60 | appends the five Spark pass-throughs, in source order; base and argument unchanged |
| CreateCluster.AddTopologyEnvironmentOptions | aztk/spark/helpers/create_cluster.py:62-65 | appends the three pass-throughs computed on the node (master flag, worker flag, master address); base and argument unchanged |
| CreateCluster.AddEnvironmentOptions | aztk/spark/helpers/create_cluster.py:38-65 | appends the 25 fixed `-e` options in source order; base and argument unchanged |
| CreateCluster.AddFixedPorts | aztk/spark/helpers/create_cluster.py:67-72 | appends the six fixed `-p` mappings in source order |
| CreateCluster.AddPluginPorts | aztk/spark/helpers/create_cluster.py:73-76 | the nested plugin/port loops append one `-p i:i` per declared port, plugin by plugin, port by port |
| CreateCluster.DockerRunCmd | aztk/spark/helpers/create_cluster.py:17-81 | the builder ends holding exactly `DockerRun`: the binary chosen by the GPU flag, the full option list and the entry-point argument |
| CreateCluster.ResolveDockerRepo | aztk/spark/helpers/create_cluster.py:153-154 | the caller's repository if it is set and non-empty, otherwise the GPU default when GPU is enabled, otherwise the CPU default; non-empty whenever both defaults are |
| CreateCluster.MkdirStatement | aztk/spark/helpers/create_cluster.py:161 | the statement is `mkdir -p ` followed by exactly the share's mount path |
| CreateCluster.MountStatement | aztk/spark/helpers/create_cluster.py:164-169 | the statement is `mount -t cifs //<account>.file.core.windows.net/<share path> <mount path> -o ` followed by exactly the options `vers=3.0`, the account name as user name, the account key as password, `dir_mode=0777,file_mode=0777,sec=ntlmssp` |
| CreateCluster.SetupNodeInvocation | aztk/spark/helpers/create_cluster.py:179-183 | the statement runs `setup_node.sh` from the task working directory; its arguments are the container name, the GPU flag as Python prints it, the image, and last the launch command in double quotes; its length is that of these parts |
| CreateCluster.SetupStatements | aztk/spark/helpers/create_cluster.py:171-184 | seven statements; the first four are `apt-get -y clean`, `apt-get -y update`, `apt-get install --fix-missing` and `apt-get -y install unzip`, in that order; the fifth unpacks the uploaded archive in the task working directory, the sixth makes `setup_node.sh` executable, the seventh is the `setup_node.sh` invocation |
| CreateCluster.ClusterInstallCmd | aztk/spark/helpers/create_cluster.py:142-187 | the share loop and the setup list produce exactly `InstallScript`, whose layout `InstallScriptLayout` states; an omitted repository, plugin list or share list defaults to none, as in the source's signature (lines 144-147) |
| CreateCluster.AztkEnvironment | aztk/spark/helpers/create_cluster.py:83-92 | exactly the two names `AZTK_MIXED_MODE`, `AZTK_WORKER_ON_MASTER` in that order; mixed mode set verbatim; worker-on-master set to the given flag, false when `None` is passed (omitting it at `GenerateClusterStartTask` passes the default `Some(true)`) |
| CreateCluster.GetAztkEnvironment | aztk/spark/helpers/create_cluster.py:83-92 | the appends to an empty list produce exactly `AztkEnvironment` |
| CreateCluster.DockerCredentials | aztk/spark/helpers/create_cluster.py:94-108 | at most three settings, in the order endpoint, username, password; each present, with its value, exactly when its field is set and non-empty; none without a docker configuration |
| CreateCluster.GetDockerCredentials | aztk/spark/helpers/create_cluster.py:94-108 | the conditional appends produce exactly `DockerCredentials` |
| CreateCluster.SecretsEnv | aztk/spark/helpers/create_cluster.py:111-139 | succeeds exactly when a shared key or a service principal is configured; with a shared key, the five shared-key names with its fields; otherwise the five `SP_*` names with the principal's fields |
| CreateCluster.SparkSettings | aztk/spark/helpers/create_cluster.py:205-223 | exactly the five Spark names, set to the three UI ports, the container name and the submit-log file |
| CreateCluster.StartTaskEnvironment | aztk/spark/helpers/create_cluster.py:213-224 | succeeds exactly when secrets are configured; then has 12 + the number of registry credentials entries |
| CreateCluster.GenerateClusterStartTask | aztk/spark/helpers/create_cluster.py:189-234 | fails exactly when no secrets are configured; otherwise: the command line is the wrapped install script, the resource files are exactly the archive, the environment is `StartTaskEnvironment`, the identity is the pool administrator and the task waits for success; omitted arguments take the source's defaults of lines 193-197: no repository, no shares, no plugins, mixed mode off, worker-on-master `Some(true)` |
| BatchModels.SetsUnique | aztk/spark/helpers/create_cluster.py:213-224 | in an environment with distinct names, each name has one value |
| ClusterProperties.SelfMapRoundTrip | aztk/spark/helpers/create_cluster.py:36 | every `{0}:{0}` text is a self mapping whose side is the text it was formatted from |
| ClusterProperties.SelfMappingIsSelfMap | aztk/spark/helpers/create_cluster.py:36 | every self mapping is the `{0}:{0}` text of its side |
| ClusterProperties.AllPortsLength | aztk/spark/helpers/create_cluster.py:73-76 | the flattened port list has as many entries as the plugins declare ports |
| ClusterProperties.PluginPortOptionsAreAllPorts | aztk/spark/helpers/create_cluster.py:73-76 | the plugin port options are one `-p i:i` per declared port, in plugin then port order |
| ClusterProperties.PluginPortOptionsLength | aztk/spark/helpers/create_cluster.py:73-76 | there are as many plugin port options as declared ports |
| ClusterProperties.EnvironmentOptionsFlag | aztk/spark/helpers/create_cluster.py:38-65 | the fixed environment block is 25 options, all `-e` |
| ClusterProperties.FixedPortsFlag | aztk/spark/helpers/create_cluster.py:67-72 | the fixed port block is six `-p` options with the mappings 8080, 7077, 7337, 4040, 18080 and 3022, in that order |
| ClusterProperties.VolumeOptions | aztk/spark/helpers/create_cluster.py:30-36 | the `-v` values are the task directory, then each share's mount path mapped to itself in request order; N shares give N + 1 `-v` options |
| ClusterProperties.PublishedPorts | aztk/spark/helpers/create_cluster.py:67-76 | the `-p` values are the six fixed mappings, then each declared plugin port mapped to itself; 6 + the number of declared ports in all |
| ClusterProperties.VolumesAndPortsAreSelfMappings | aztk/spark/helpers/create_cluster.py:30-76 | every `-v` and every `-p` maps a host path or port onto the same one in the container |
| ClusterProperties.DockerRunLayout | aztk/spark/helpers/create_cluster.py:26-79 | the binary follows the GPU flag; the options are `--net host`, `--name <container>`, the task-directory volume, one volume per share in order, the 25 fixed `-e` options, the ports, and last `-d <repo>`; their count is 3 + N + 25 + 6 + ports + 1; the argument is the `docker_main.sh` entry point |
| ClusterProperties.GpuFlagChangesOnlyTheBinary | aztk/spark/helpers/create_cluster.py:26-29 | for the same image, the GPU and the CPU launch commands differ only in the binary, `nvidia-docker run` against `docker run` |
| ClusterProperties.MountStatementsLayout | aztk/spark/helpers/create_cluster.py:158-169 | two statements per share, in request order: `mkdir -p` of its mount path, immediately followed by its CIFS mount |
| ClusterProperties.InstallScriptLayout | aztk/spark/helpers/create_cluster.py:156-187 | N shares give 2N + 7 statements: the share statements first, then the seven setup statements; the last statement runs `setup_node.sh` with the container name, the GPU flag, the resolved image and the rendered launch command of that image |
| ClusterProperties.SetupAndLaunchAgreeOnImage | aztk/spark/helpers/create_cluster.py:179-183 | the launch command handed to `setup_node.sh` runs exactly the resolved image that `setup_node.sh` receives: its only `-d` value |
| ClusterProperties.NameGroupsDistinct | aztk/spark/helpers/create_cluster.py:111-139 | each group of environment names (shared key, service principal, Spark, registry, AZTK) is duplicate-free |
| ClusterProperties.CredentialGroupsDisjoint | aztk/spark/helpers/create_cluster.py:111-139 | shared-key and service-principal names share nothing with each other or with the Spark, registry and AZTK names |
| ClusterProperties.LaterGroupsDisjoint | aztk/spark/helpers/create_cluster.py:213-224 | the Spark, registry and AZTK names share nothing |
| ClusterProperties.DockerCredentialNamesDistinct | aztk/spark/helpers/create_cluster.py:94-108 | the registry credentials carry distinct names, all drawn from the three registry names |
| ClusterProperties.SecretsAreExclusive | aztk/spark/helpers/create_cluster.py:111-139 | the secrets are never a mix of shared-key and `SP_*` names, and a configured shared key makes the service principal irrelevant |
| ClusterProperties.StartTaskEnvironmentNames | aztk/spark/helpers/create_cluster.py:213-224 | the environment's names are the secrets', the five Spark names, the registry names and the two AZTK names, in that order, and they are pairwise distinct |
| ClusterProperties.StartTaskEnvironmentSettings | aztk/spark/helpers/create_cluster.py:213-224 | the environment sets the AZTK flags and the Spark settings to the request's and the constants' values, and keeps every secret and registry setting |
| ClusterProperties.StartTaskEnvironmentSingleValued | aztk/spark/helpers/create_cluster.py:213-224 | each name of the environment has one value; `AZTK_MIXED_MODE` has no value but the mixed-mode flag and `AZTK_WORKER_ON_MASTER` none but the worker-on-master flag (false for `None`) |
| ClusterProperties.StartTaskEnvironmentNameGroups | aztk/spark/helpers/create_cluster.py:213-224 | every environment name belongs to one of the five name groups |
| ClusterProperties.SharedKeyNamesForwarded | aztk/spark/helpers/create_cluster.py:38-44 | each shared-key name has a `-e NAME=$NAME` option |
| ClusterProperties.ServicePrincipalNamesForwarded | aztk/spark/helpers/create_cluster.py:45-49 | each service-principal name has a `-e NAME=$NAME` option |
| ClusterProperties.SparkNamesForwarded | aztk/spark/helpers/create_cluster.py:56-60 | each Spark name has a `-e NAME=$NAME` option |
| ClusterProperties.AztkNamesForwarded | aztk/spark/helpers/create_cluster.py:52-53 | both AZTK flag names have a `-e NAME=$NAME` option |
| ClusterProperties.ForwardedNames | aztk/spark/helpers/create_cluster.py:38-60 | every secret, Spark and AZTK name has its pass-through among the fixed `-e` options |
| ClusterProperties.StartTaskEnvironmentForwarded | aztk/spark/helpers/create_cluster.py:38-60 | every setting of the start task's environment except the registry credentials has a `-e NAME=$NAME` option among the fixed launch options |

## Left out

- The text rendering of the builder (`CommandBuilder.to_str`) and `helpers.wrap_commands_in_shell` are passed in as the functions `render` and `wrap`. `aztk/utils/command_builder.py` and `aztk/utils/helpers.py` are not part of this model.
- `aztk_cli/spark/endpoints/job/list_apps.py` is command-line plumbing around a batch service call and a print. It is not part of this model.
- The values of `aztk.utils.constants` are fields of a `Constants` record. The properties hold for every choice of them.
- The Azure batch SDK objects are plain records. Their serialisation is not modelled, including how boolean and integer setting values become strings. Setting values are a tagged `EnvValue`: text, flag or number.
- `None` and `[]` for the file shares and plugins are both the empty sequence. The source treats them alike (`if file_mounts:`, `if plugins:`).
- `__docker_run_cmd` takes `worker_on_master` and `mixed_mode` but never reads them, so `DockerRunCmd` does not take them. `__cluster_install_cmd` takes them only to pass them on to `__docker_run_cmd`, so `ClusterInstallCmd` does not take them either. Its `docker_repo` is always the already resolved repository, so it is a plain string.
- The source's default arguments are Dafny default parameter values of `GenerateClusterStartTask` and `ClusterInstallCmd`. The parameters without a default (`consts`, `render`, `wrap`) come first, so the parameter order differs from the source's. `InstallScript` and `StartTaskEnvironment` take every argument explicitly.
- `worker_on_master` is modelled as an optional boolean. The source forwards any non-`None` value verbatim; only boolean values are modelled.
- Of a plugin port only `internal` is used; it is modelled as an integer and formatted with Python's `str`.
- Presence of the shared key, service principal and docker configuration is modelled as `Some`. A configuration object that Python would find falsy is not modelled.
- `SecretsEnv`: when neither a shared key nor a service principal is set, the source raises an `AttributeError` on the missing principal. The model returns `Err(MissingServicePrincipal)` instead. No other exception is modelled.
- What the generated shell does on the node is remote execution, outside this code. That covers `apt-get`, `unzip`, the CIFS mount, `setup_node.sh` and `docker_main.sh`.
- Shell quoting: the source escapes nothing, and the model keeps every value verbatim.
- The `-e NAME=$NAME` values are written with the helper `PassThrough(name)`. It produces the same text as the source's literals.

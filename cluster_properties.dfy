/**
 * Properties of the start-task generator: the layout of the container
 * launch options, the node install script, and the start task's
 * environment.
 */
module ClusterProperties {
  import opened Wrappers
  import opened CommandBuilding
  import opened BatchModels
  import opened CreateCluster

  // ---------------------------------------------------------------------
  // Self mappings
  // ---------------------------------------------------------------------

  /** `v` has the form `x:x`: a host side and a container side that agree. */
  predicate IsSelfMapping(v: string)
  {
    |v| % 2 == 1 && v[|v| / 2] == ':' && v[..|v| / 2] == v[|v| / 2 + 1..]
  }

  /** The host side of a self mapping, which is also its container side. */
  function MappedSide(v: string): (s: string)
    requires IsSelfMapping(v)
    ensures |s| == |v| / 2
  {
    v[..|v| / 2]
  }

  /** Every `SelfMap` is a self mapping, and its side is the text it was made from. */
  lemma SelfMapRoundTrip(s: string)
    ensures IsSelfMapping(SelfMap(s))
    ensures MappedSide(SelfMap(s)) == s
  {
    var v := SelfMap(s);
    assert |v| / 2 == |s|;
    assert v[..|s|] == s;
    assert v[|s| + 1..] == s;
  }

  /** Conversely, every self mapping is the `SelfMap` of its side. */
  lemma SelfMappingIsSelfMap(v: string)
    requires IsSelfMapping(v)
    ensures SelfMap(MappedSide(v)) == v
  {
    var h := |v| / 2;
    assert v == v[..h] + [v[h]] + v[h + 1..];
  }

  // ---------------------------------------------------------------------
  // The plugin ports
  // ---------------------------------------------------------------------

  /** The declared ports of every plugin, plugin by plugin. */
  function AllPorts(plugins: seq<PluginConfiguration>): seq<int>
  {
    if plugins == [] then []
    else AllPorts(plugins[..|plugins| - 1])
         + seq(|plugins[|plugins| - 1].ports|, k requires 0 <= k < |plugins[|plugins| - 1].ports| =>
                 plugins[|plugins| - 1].ports[k].internal)
  }

  /** The total number of ports the plugins declare. */
  function PortCount(plugins: seq<PluginConfiguration>): nat
  {
    if plugins == [] then 0 else PortCount(plugins[..|plugins| - 1]) + |plugins[|plugins| - 1].ports|
  }

  lemma {:induction false} AllPortsLength(plugins: seq<PluginConfiguration>)
    ensures |AllPorts(plugins)| == PortCount(plugins)
  {
    if plugins != [] {
      AllPortsLength(plugins[..|plugins| - 1]);
    }
  }

  /** The plugin port options are one `-p i:i` per declared port, in plugin then port order. */
  lemma {:induction false} PluginPortOptionsAreAllPorts(plugins: seq<PluginConfiguration>)
    ensures PluginPortOptions(plugins)
            == seq(|AllPorts(plugins)|, k requires 0 <= k < |AllPorts(plugins)| =>
                     ("-p", SelfMap(IntToString(AllPorts(plugins)[k]))))
  {
    if plugins != [] {
      var init := plugins[..|plugins| - 1];
      PluginPortOptionsAreAllPorts(init);
    }
  }

  // ---------------------------------------------------------------------
  // The container launch options
  // ---------------------------------------------------------------------

  /** Every option of `options` uses `flag`. */
  predicate UsesOnly(options: seq<CommandOption>, flag: string)
  {
    forall k :: 0 <= k < |options| ==> options[k].0 == flag
  }

  /** Every fixed environment option uses the `-e` flag. */
  lemma EnvironmentOptionsFlag()
    ensures |EnvironmentOptions()| == 25
    ensures UsesOnly(EnvironmentOptions(), "-e")
  {
  }

  /** The six fixed port mappings, in the order they are published. */
  const FixedPortMappings := ["8080:8080", "7077:7077", "7337:7337", "4040:4040", "18080:18080", "3022:3022"]

  /** The fixed ports are six `-p` options with the fixed mappings. */
  lemma FixedPortsFlag()
    ensures |FixedPorts()| == 6
    ensures UsesOnly(FixedPorts(), "-p")
    ensures FlagValues(FixedPorts(), "-p") == FixedPortMappings
  {
    FlagValuesUniform(FixedPorts(), "-p");
  }

  // The launch options are reasoned about below with the fixed `-e` and
  // `-p` blocks left abstract, so that the proofs do not carry their
  // literal values.

  /** The launch options around an environment block and a fixed-port block. */
  function LaunchOptionsWith(consts: Constants, dockerRepo: string, mounts: seq<FileShare>,
                             plugins: seq<PluginConfiguration>, environment: seq<CommandOption>,
                             fixedPorts: seq<CommandOption>)
    : (opts: seq<CommandOption>)
    ensures |opts| == 3 + |mounts| + |environment| + |fixedPorts| + |PluginPortOptions(plugins)| + 1
  {
    LeadingOptions(consts) + MountVolumes(mounts) + environment
    + fixedPorts + PluginPortOptions(plugins) + [("-d", dockerRepo)]
  }

  lemma LaunchOptionsWithFixedBlocks(consts: Constants, dockerRepo: string, mounts: seq<FileShare>,
                                     plugins: seq<PluginConfiguration>)
    ensures DockerRunOptions(consts, dockerRepo, mounts, plugins)
            == LaunchOptionsWith(consts, dockerRepo, mounts, plugins, EnvironmentOptions(), FixedPorts())
  {
  }

  /**
   * Selecting by flag over six concatenated option lists, the third of which
   * never uses the flag.
   */
  lemma {:induction false} FlagValuesSkipping(a0: seq<CommandOption>, a1: seq<CommandOption>, skipped: seq<CommandOption>,
                                              a3: seq<CommandOption>, a4: seq<CommandOption>, a5: seq<CommandOption>,
                                              flag: string)
    requires forall k :: 0 <= k < |skipped| ==> skipped[k].0 != flag
    ensures FlagValues(a0 + a1 + skipped + a3 + a4 + a5, flag)
            == FlagValues(a0, flag) + FlagValues(a1, flag) + FlagValues(a3, flag)
               + FlagValues(a4, flag) + FlagValues(a5, flag)
  {
    FlagValuesAbsent(skipped, flag);
    FlagValuesAppend(a0, a1, flag);
    FlagValuesAppend(a0 + a1, skipped, flag);
    FlagValuesAppend(a0 + a1 + skipped, a3, flag);
    FlagValuesAppend(a0 + a1 + skipped + a3, a4, flag);
    FlagValuesAppend(a0 + a1 + skipped + a3 + a4, a5, flag);
  }

  /** The values of any flag but `-e`, collected group by group over the launch options. */
  lemma LaunchFlagValues(consts: Constants, dockerRepo: string, mounts: seq<FileShare>,
                         plugins: seq<PluginConfiguration>, environment: seq<CommandOption>,
                         fixedPorts: seq<CommandOption>, flag: string)
    requires UsesOnly(environment, "-e") && flag != "-e"
    ensures FlagValues(LaunchOptionsWith(consts, dockerRepo, mounts, plugins, environment, fixedPorts), flag)
            == FlagValues(LeadingOptions(consts), flag) + FlagValues(MountVolumes(mounts), flag)
               + FlagValues(fixedPorts, flag) + FlagValues(PluginPortOptions(plugins), flag)
               + FlagValues([("-d", dockerRepo)], flag)
  {
    FlagValuesSkipping(LeadingOptions(consts), MountVolumes(mounts), environment,
                       fixedPorts, PluginPortOptions(plugins), [("-d", dockerRepo)], flag);
  }

  /** The leading options hold the one task-directory volume and no port or image. */
  lemma LeadingFlagValues(consts: Constants, flag: string)
    ensures flag != "--net" && flag != "--name" ==>
              FlagValues(LeadingOptions(consts), flag) == if flag == "-v" then [SelfMap(TaskDirectory)] else []
  {
    if flag != "--net" && flag != "--name" {
      var lead := LeadingOptions(consts);
      assert FlagValues(lead[1..][1..][1..], flag) == [];
      assert FlagValues(lead[1..][1..], flag) == if flag == "-v" then [SelfMap(TaskDirectory)] else [];
      assert FlagValues(lead[1..], flag) == FlagValues(lead[1..][1..], flag);
    }
  }

  /** The image option is the only `-d` option and holds nothing else. */
  lemma ImageFlagValues(dockerRepo: string, flag: string)
    ensures FlagValues([("-d", dockerRepo)], flag) == if flag == "-d" then [dockerRepo] else []
  {
    assert [("-d", dockerRepo)][1..] == [];
  }

  /** The plugin port options use only the `-p` flag. */
  lemma PluginPortsFlagValues(plugins: seq<PluginConfiguration>, flag: string)
    ensures flag == "-p" ==> FlagValues(PluginPortOptions(plugins), flag)
                             == seq(|AllPorts(plugins)|, k requires 0 <= k < |AllPorts(plugins)| =>
                                      SelfMap(IntToString(AllPorts(plugins)[k])))
    ensures flag != "-p" ==> FlagValues(PluginPortOptions(plugins), flag) == []
  {
    PluginPortOptionsAreAllPorts(plugins);
    if flag == "-p" {
      FlagValuesUniform(PluginPortOptions(plugins), flag);
    } else {
      FlagValuesAbsent(PluginPortOptions(plugins), flag);
    }
  }

  /** The share mounts use only the `-v` flag. */
  lemma MountVolumesFlagValues(mounts: seq<FileShare>, flag: string)
    ensures flag == "-v" ==> FlagValues(MountVolumes(mounts), flag)
                             == seq(|mounts|, i requires 0 <= i < |mounts| => SelfMap(mounts[i].mountPath))
    ensures flag != "-v" ==> FlagValues(MountVolumes(mounts), flag) == []
  {
    if flag == "-v" {
      FlagValuesUniform(MountVolumes(mounts), flag);
    } else {
      FlagValuesAbsent(MountVolumes(mounts), flag);
    }
  }

  /** Dropping the empty parts of a five-part concatenation. */
  lemma DropEmptyParts(x0: seq<string>, x1: seq<string>, x2: seq<string>, x3: seq<string>, x4: seq<string>)
    ensures x2 == [] && x3 == [] && x4 == [] ==> x0 + x1 + x2 + x3 + x4 == x0 + x1
    ensures x0 == [] && x1 == [] && x4 == [] ==> x0 + x1 + x2 + x3 + x4 == x2 + x3
    ensures x0 == [] && x1 == [] && x2 == [] && x3 == [] ==> x0 + x1 + x2 + x3 + x4 == x4
  {
  }

  // The three lemmas below take the flag as a variable: with a literal flag
  // the verifier would evaluate the selection over the literal groups.

  lemma VolumeValues(consts: Constants, dockerRepo: string, mounts: seq<FileShare>,
                     plugins: seq<PluginConfiguration>, environment: seq<CommandOption>,
                     fixedPorts: seq<CommandOption>, flag: string)
    requires UsesOnly(environment, "-e") && UsesOnly(fixedPorts, "-p") && flag == "-v"
    ensures FlagValues(LaunchOptionsWith(consts, dockerRepo, mounts, plugins, environment, fixedPorts), flag)
            == [SelfMap(TaskDirectory)] + seq(|mounts|, i requires 0 <= i < |mounts| => SelfMap(mounts[i].mountPath))
  {
    LaunchFlagValues(consts, dockerRepo, mounts, plugins, environment, fixedPorts, flag);
    FlagValuesAbsent(fixedPorts, flag);
    PluginPortsFlagValues(plugins, flag);
    MountVolumesFlagValues(mounts, flag);
    LeadingFlagValues(consts, flag);
    ImageFlagValues(dockerRepo, flag);
    DropEmptyParts(FlagValues(LeadingOptions(consts), flag), FlagValues(MountVolumes(mounts), flag),
                   FlagValues(fixedPorts, flag), FlagValues(PluginPortOptions(plugins), flag),
                   FlagValues([("-d", dockerRepo)], flag));
  }

  lemma PortValues(consts: Constants, dockerRepo: string, mounts: seq<FileShare>,
                   plugins: seq<PluginConfiguration>, environment: seq<CommandOption>,
                   fixedPorts: seq<CommandOption>, flag: string)
    requires UsesOnly(environment, "-e") && flag == "-p"
    ensures FlagValues(LaunchOptionsWith(consts, dockerRepo, mounts, plugins, environment, fixedPorts), flag)
            == FlagValues(fixedPorts, flag)
               + seq(|AllPorts(plugins)|, k requires 0 <= k < |AllPorts(plugins)| => SelfMap(IntToString(AllPorts(plugins)[k])))
  {
    LaunchFlagValues(consts, dockerRepo, mounts, plugins, environment, fixedPorts, flag);
    PluginPortsFlagValues(plugins, flag);
    MountVolumesFlagValues(mounts, flag);
    LeadingFlagValues(consts, flag);
    ImageFlagValues(dockerRepo, flag);
    DropEmptyParts(FlagValues(LeadingOptions(consts), flag), FlagValues(MountVolumes(mounts), flag),
                   FlagValues(fixedPorts, flag), FlagValues(PluginPortOptions(plugins), flag),
                   FlagValues([("-d", dockerRepo)], flag));
  }

  lemma ImageValues(consts: Constants, dockerRepo: string, mounts: seq<FileShare>,
                    plugins: seq<PluginConfiguration>, environment: seq<CommandOption>,
                    fixedPorts: seq<CommandOption>, flag: string)
    requires UsesOnly(environment, "-e") && UsesOnly(fixedPorts, "-p") && flag == "-d"
    ensures FlagValues(LaunchOptionsWith(consts, dockerRepo, mounts, plugins, environment, fixedPorts), flag)
            == [dockerRepo]
  {
    LaunchFlagValues(consts, dockerRepo, mounts, plugins, environment, fixedPorts, flag);
    FlagValuesAbsent(fixedPorts, flag);
    PluginPortsFlagValues(plugins, flag);
    MountVolumesFlagValues(mounts, flag);
    LeadingFlagValues(consts, flag);
    ImageFlagValues(dockerRepo, flag);
    DropEmptyParts(FlagValues(LeadingOptions(consts), flag), FlagValues(MountVolumes(mounts), flag),
                   FlagValues(fixedPorts, flag), FlagValues(PluginPortOptions(plugins), flag),
                   FlagValues([("-d", dockerRepo)], flag));
  }

  /**
   * The volumes: the task directory first, then one per file share in
   * request order, so N shares give N + 1 `-v` options.
   */
  lemma VolumeOptions(consts: Constants, dockerRepo: string, mounts: seq<FileShare>,
                      plugins: seq<PluginConfiguration>)
    ensures FlagValues(DockerRunOptions(consts, dockerRepo, mounts, plugins), "-v")
            == [SelfMap(TaskDirectory)] + seq(|mounts|, i requires 0 <= i < |mounts| => SelfMap(mounts[i].mountPath))
    ensures CountFlag(DockerRunOptions(consts, dockerRepo, mounts, plugins), "-v") == |mounts| + 1
  {
    EnvironmentOptionsFlag();
    FixedPortsFlag();
    LaunchOptionsWithFixedBlocks(consts, dockerRepo, mounts, plugins);
    VolumeValues(consts, dockerRepo, mounts, plugins, EnvironmentOptions(), FixedPorts(), "-v");
  }

  /**
   * The ports: the six fixed mappings in order, then one per declared
   * plugin port in plugin then port order, 6 + the number of declared
   * ports in all.
   */
  lemma PublishedPorts(consts: Constants, dockerRepo: string, mounts: seq<FileShare>,
                    plugins: seq<PluginConfiguration>)
    ensures FlagValues(DockerRunOptions(consts, dockerRepo, mounts, plugins), "-p")
            == FixedPortMappings
               + seq(|AllPorts(plugins)|, k requires 0 <= k < |AllPorts(plugins)| => SelfMap(IntToString(AllPorts(plugins)[k])))
    ensures CountFlag(DockerRunOptions(consts, dockerRepo, mounts, plugins), "-p") == 6 + PortCount(plugins)
  {
    EnvironmentOptionsFlag();
    FixedPortsFlag();
    LaunchOptionsWithFixedBlocks(consts, dockerRepo, mounts, plugins);
    PortValues(consts, dockerRepo, mounts, plugins, EnvironmentOptions(), FixedPorts(), "-p");
    AllPortsLength(plugins);
  }

  /** Every text in a list of `SelfMap`s is a self mapping. */
  lemma SelfMapsAreSelfMappings(sides: seq<string>)
    ensures forall v :: v in seq(|sides|, i requires 0 <= i < |sides| => SelfMap(sides[i])) ==> IsSelfMapping(v)
  {
    forall i | 0 <= i < |sides|
      ensures IsSelfMapping(SelfMap(sides[i]))
    {
      SelfMapRoundTrip(sides[i]);
    }
  }

  /** Every volume and every port option maps a host path or port onto the same one in the container. */
  lemma VolumesAndPortsAreSelfMappings(consts: Constants, dockerRepo: string, mounts: seq<FileShare>,
                                       plugins: seq<PluginConfiguration>)
    ensures forall v :: v in FlagValues(DockerRunOptions(consts, dockerRepo, mounts, plugins), "-v") ==> IsSelfMapping(v)
    ensures forall v :: v in FlagValues(DockerRunOptions(consts, dockerRepo, mounts, plugins), "-p") ==> IsSelfMapping(v)
  {
    VolumeOptions(consts, dockerRepo, mounts, plugins);
    PublishedPorts(consts, dockerRepo, mounts, plugins);
    var paths := [TaskDirectory] + seq(|mounts|, i requires 0 <= i < |mounts| => mounts[i].mountPath);
    assert [SelfMap(TaskDirectory)] + seq(|mounts|, i requires 0 <= i < |mounts| => SelfMap(mounts[i].mountPath))
        == seq(|paths|, i requires 0 <= i < |paths| => SelfMap(paths[i]));
    SelfMapsAreSelfMappings(paths);
    var ports := ["8080", "7077", "7337", "4040", "18080", "3022"]
                 + seq(|AllPorts(plugins)|, k requires 0 <= k < |AllPorts(plugins)| => IntToString(AllPorts(plugins)[k]));
    assert SelfMap("8080") == "8080:8080" && SelfMap("7077") == "7077:7077" && SelfMap("7337") == "7337:7337";
    assert SelfMap("4040") == "4040:4040" && SelfMap("18080") == "18080:18080" && SelfMap("3022") == "3022:3022";
    assert FixedPortMappings == seq(6, i requires 0 <= i < 6 => SelfMap(ports[i]));
    assert FixedPortMappings
           + seq(|AllPorts(plugins)|, k requires 0 <= k < |AllPorts(plugins)| => SelfMap(IntToString(AllPorts(plugins)[k])))
        == seq(|ports|, i requires 0 <= i < |ports| => SelfMap(ports[i]));
    SelfMapsAreSelfMappings(ports);
  }

  /** The number of plugin port options is the number of declared ports. */
  lemma PluginPortOptionsLength(plugins: seq<PluginConfiguration>)
    ensures |PluginPortOptions(plugins)| == PortCount(plugins)
  {
    PluginPortOptionsAreAllPorts(plugins);
    AllPortsLength(plugins);
  }

  /** The positions of the leading options, the volumes, the environment block and the image. */
  lemma LaunchLayout(consts: Constants, dockerRepo: string, mounts: seq<FileShare>,
                     plugins: seq<PluginConfiguration>, environment: seq<CommandOption>,
                     fixedPorts: seq<CommandOption>)
    ensures var opts := LaunchOptionsWith(consts, dockerRepo, mounts, plugins, environment, fixedPorts);
            && opts[..3] == [("--net", "host"), ("--name", consts.containerName), ("-v", SelfMap(TaskDirectory))]
            && (forall i :: 0 <= i < |mounts| ==> opts[3 + i] == ("-v", SelfMap(mounts[i].mountPath)))
            && opts[3 + |mounts|..3 + |mounts| + |environment|] == environment
            && opts[|opts| - 1] == ("-d", dockerRepo)
  {
    var opts := LaunchOptionsWith(consts, dockerRepo, mounts, plugins, environment, fixedPorts);
    var head := LeadingOptions(consts) + MountVolumes(mounts);
    assert opts == head + environment + (fixedPorts + PluginPortOptions(plugins) + [("-d", dockerRepo)]);
    assert opts[..3] == head[..3];
    forall i | 0 <= i < |mounts|
      ensures opts[3 + i] == ("-v", SelfMap(mounts[i].mountPath))
    {
      assert opts[3 + i] == head[3 + i];
    }
    assert (head + environment)[|head|..] == environment;
  }

  /**
   * The launch command's shape: the binary chosen by the GPU flag, the three
   * leading options, one volume per share right after them, then the 25
   * fixed `-e` options, the image as the last option, and the fixed entry
   * point as the trailing argument.
   */
  lemma DockerRunLayout(consts: Constants, dockerRepo: string, gpuEnabled: bool, mounts: seq<FileShare>,
                        plugins: seq<PluginConfiguration>)
    ensures DockerRun(consts, dockerRepo, gpuEnabled, mounts, plugins).base
            == if gpuEnabled then "nvidia-docker run" else "docker run"
    ensures var opts := DockerRun(consts, dockerRepo, gpuEnabled, mounts, plugins).options;
            && |opts| == 3 + |mounts| + 25 + 6 + PortCount(plugins) + 1
            && opts[..3] == [("--net", "host"), ("--name", consts.containerName), ("-v", SelfMap(TaskDirectory))]
            && (forall i :: 0 <= i < |mounts| ==> opts[3 + i] == ("-v", SelfMap(mounts[i].mountPath)))
            && opts[3 + |mounts|..28 + |mounts|] == EnvironmentOptions()
            && opts[|opts| - 1] == ("-d", dockerRepo)
    ensures DockerRun(consts, dockerRepo, gpuEnabled, mounts, plugins).argument == Some(DockerMainEntry)
  {
    EnvironmentOptionsFlag();
    FixedPortsFlag();
    PluginPortOptionsLength(plugins);
    LaunchOptionsWithFixedBlocks(consts, dockerRepo, mounts, plugins);
    LaunchLayout(consts, dockerRepo, mounts, plugins, EnvironmentOptions(), FixedPorts());
  }

  /** The GPU flag changes the binary and nothing else. */
  lemma GpuFlagChangesOnlyTheBinary(consts: Constants, dockerRepo: string, mounts: seq<FileShare>,
                                    plugins: seq<PluginConfiguration>)
    ensures DockerRun(consts, dockerRepo, true, mounts, plugins)
            == DockerRun(consts, dockerRepo, false, mounts, plugins).(base := "nvidia-docker run")
  {
  }

  // ---------------------------------------------------------------------
  // The node install script
  // ---------------------------------------------------------------------

  /** Two statements per share, in request order: create the mount point, then mount. */
  lemma {:induction false} MountStatementsLayout(mounts: seq<FileShare>)
    ensures |MountStatements(mounts)| == 2 * |mounts|
    ensures forall i :: 0 <= i < |mounts| ==>
              MountStatements(mounts)[2 * i] == MkdirStatement(mounts[i])
              && MountStatements(mounts)[2 * i + 1] == MountStatement(mounts[i])
  {
    if mounts != [] {
      var init := mounts[..|mounts| - 1];
      MountStatementsLayout(init);
      forall i | 0 <= i < |mounts|
        ensures MountStatements(mounts)[2 * i] == MkdirStatement(mounts[i])
        ensures MountStatements(mounts)[2 * i + 1] == MountStatement(mounts[i])
      {
        if i < |init| {
          assert mounts[i] == init[i];
        }
      }
    }
  }

  /** The share statements followed by seven others, read back position by position. */
  lemma SharesThenSetup(mounts: seq<FileShare>, setup: seq<string>)
    requires |setup| == 7
    ensures var script := MountStatements(mounts) + setup;
            && |script| == 2 * |mounts| + 7
            && (forall i :: 0 <= i < |mounts| ==>
                  script[2 * i] == MkdirStatement(mounts[i]) && script[2 * i + 1] == MountStatement(mounts[i]))
            && script[2 * |mounts|..] == setup
            && script[|script| - 1] == setup[6]
  {
    MountStatementsLayout(mounts);
    var shares := MountStatements(mounts);
    var script := shares + setup;
    forall i | 0 <= i < |mounts|
      ensures script[2 * i] == MkdirStatement(mounts[i]) && script[2 * i + 1] == MountStatement(mounts[i])
    {
      assert script[2 * i] == shares[2 * i];
      assert script[2 * i + 1] == shares[2 * i + 1];
    }
    assert script[2 * |mounts|..] == setup;
  }

  /**
   * The install script of N shares has 2N + 7 statements: the share
   * statements in request order, then the seven setup statements, the last
   * of which runs `setup_node.sh` with the resolved image and the rendered
   * launch command of that same image.
   */
  lemma InstallScriptLayout(consts: Constants, zipResourceFile: ResourceFile, gpuEnabled: bool,
                            dockerRepo: Option<string>, plugins: seq<PluginConfiguration>,
                            mounts: seq<FileShare>, render: Command -> string)
    ensures var script := InstallScript(consts, zipResourceFile, gpuEnabled, dockerRepo, plugins, mounts, render);
            var repo := ResolveDockerRepo(consts, gpuEnabled, dockerRepo);
            var launch := render(DockerRun(consts, repo, gpuEnabled, mounts, plugins));
            && |script| == 2 * |mounts| + 7
            && (forall i :: 0 <= i < |mounts| ==>
                  script[2 * i] == MkdirStatement(mounts[i]) && script[2 * i + 1] == MountStatement(mounts[i]))
            && script[2 * |mounts|..] == SetupStatements(consts, zipResourceFile, gpuEnabled, repo, launch)
            && script[|script| - 1] == SetupNodeInvocation(consts, gpuEnabled, repo, launch)
  {
    var repo := ResolveDockerRepo(consts, gpuEnabled, dockerRepo);
    var launch := render(DockerRun(consts, repo, gpuEnabled, mounts, plugins));
    SharesThenSetup(mounts, SetupStatements(consts, zipResourceFile, gpuEnabled, repo, launch));
  }

  /**
   * The image handed to `setup_node.sh` is the image the launch command
   * runs: the argument of its final `-d` option.
   */
  lemma SetupAndLaunchAgreeOnImage(consts: Constants, gpuEnabled: bool, dockerRepo: Option<string>,
                                   plugins: seq<PluginConfiguration>, mounts: seq<FileShare>)
    ensures var repo := ResolveDockerRepo(consts, gpuEnabled, dockerRepo);
            var opts := DockerRun(consts, repo, gpuEnabled, mounts, plugins).options;
            FlagValues(opts, "-d") == [repo]
  {
    var repo := ResolveDockerRepo(consts, gpuEnabled, dockerRepo);
    EnvironmentOptionsFlag();
    FixedPortsFlag();
    LaunchOptionsWithFixedBlocks(consts, repo, mounts, plugins);
    ImageValues(consts, repo, mounts, plugins, EnvironmentOptions(), FixedPorts(), "-d");
  }

  // ---------------------------------------------------------------------
  // The start task's environment
  // ---------------------------------------------------------------------

  /** No text of `a` occurs in `b`. */
  predicate Disjoint(a: seq<string>, b: seq<string>)
  {
    forall x :: x in a ==> x !in b
  }

  lemma {:induction false} NamesAppend(a: seq<EnvironmentSetting>, b: seq<EnvironmentSetting>)
    ensures Names(a + b) == Names(a) + Names(b)
  {
    assert forall k :: 0 <= k < |a + b| ==> Names(a + b)[k] == (Names(a) + Names(b))[k];
  }

  /** Two duplicate-free lists with nothing in common concatenate to a duplicate-free list. */
  lemma DistinctAppend(a: seq<string>, b: seq<string>)
    requires Distinct(a) && Distinct(b) && Disjoint(a, b)
    ensures Distinct(a + b)
  {
    forall i, j | 0 <= i < j < |a + b|
      ensures (a + b)[i] != (a + b)[j]
    {
      if j < |a| {
        assert (a + b)[i] == a[i] && (a + b)[j] == a[j];
      } else if |a| <= i {
        assert (a + b)[i] == b[i - |a|] && (a + b)[j] == b[j - |a|];
      } else {
        assert (a + b)[i] == a[i] && (a + b)[i] in a;
        assert (a + b)[j] == b[j - |a|] && (a + b)[j] in b;
      }
    }
  }

  /** Each group of environment names is duplicate-free. */
  lemma NameGroupsDistinct()
    ensures Distinct(SharedKeyNames) && Distinct(ServicePrincipalNames) && Distinct(SparkNames)
    ensures Distinct(DockerCredentialNames) && Distinct(AztkNames)
  {
  }

  /** The credential groups share no name with each other or with the later groups. */
  lemma CredentialGroupsDisjoint()
    ensures Disjoint(SharedKeyNames, ServicePrincipalNames)
    ensures Disjoint(SharedKeyNames, SparkNames) && Disjoint(ServicePrincipalNames, SparkNames)
    ensures Disjoint(SharedKeyNames, DockerCredentialNames) && Disjoint(ServicePrincipalNames, DockerCredentialNames)
    ensures Disjoint(SharedKeyNames, AztkNames) && Disjoint(ServicePrincipalNames, AztkNames)
  {
  }

  /** The Spark, registry and AZTK groups share no name. */
  lemma LaterGroupsDisjoint()
    ensures Disjoint(SparkNames, DockerCredentialNames)
    ensures Disjoint(SparkNames, AztkNames) && Disjoint(DockerCredentialNames, AztkNames)
  {
  }

  /** The registry credentials carry distinct names, all registry credential names. */
  lemma DockerCredentialNamesDistinct(docker: Option<DockerConfiguration>)
    ensures Distinct(Names(DockerCredentials(docker)))
    ensures forall x :: x in Names(DockerCredentials(docker)) ==> x in DockerCredentialNames
  {
    var creds := DockerCredentials(docker);
    forall i, j | 0 <= i < j < |creds|
      ensures Names(creds)[i] != Names(creds)[j]
    {
      assert DockerCredentialRank(creds[i].name) < DockerCredentialRank(creds[j].name);
    }
  }

  /**
   * Secrets are exclusive: the credentials are either all shared-key
   * settings or all service-principal settings, never a mix, and a
   * configured shared key makes the service principal irrelevant.
   */
  lemma SecretsAreExclusive(secrets: SecretsConfiguration)
    ensures SecretsEnv(secrets).Ok? ==>
              Disjoint(Names(SecretsEnv(secrets).value), ServicePrincipalNames)
              || Disjoint(Names(SecretsEnv(secrets).value), SharedKeyNames)
    ensures secrets.sharedKey.Some? ==> SecretsEnv(secrets) == SecretsEnv(secrets.(servicePrincipal := None))
  {
    CredentialGroupsDisjoint();
    assert forall x :: x in ServicePrincipalNames ==> x !in SharedKeyNames;
  }

  /** A list drawn from `pool` shares nothing with a list disjoint from `pool`. */
  lemma DisjointFromPool(a: seq<string>, b: seq<string>, pool: seq<string>)
    requires forall x :: x in b ==> x in pool
    requires Disjoint(a, pool)
    ensures Disjoint(a, b)
  {
  }

  /**
   * The start task's environment is the credentials, the five Spark
   * settings, the registry credentials and the two AZTK flags, in that
   * order, and no name occurs twice.
   */
  lemma StartTaskEnvironmentNames(consts: Constants, secrets: SecretsConfiguration,
                                  workerOnMaster: Option<bool>, mixedMode: bool)
    ensures var r := StartTaskEnvironment(consts, secrets, workerOnMaster, mixedMode);
            r.Ok? ==>
              Names(r.value) == Names(SecretsEnv(secrets).value) + SparkNames
                                + Names(DockerCredentials(secrets.docker)) + AztkNames
              && Distinct(Names(r.value))
  {
    var r := StartTaskEnvironment(consts, secrets, workerOnMaster, mixedMode);
    if r.Ok? {
      var secretsEnv, spark := SecretsEnv(secrets).value, SparkSettings(consts);
      var creds, aztk := DockerCredentials(secrets.docker), AztkEnvironment(workerOnMaster, mixedMode);
      NamesAppend(secretsEnv, spark);
      NamesAppend(secretsEnv + spark, creds);
      NamesAppend(secretsEnv + spark + creds, aztk);
      var a, c := Names(secretsEnv), Names(creds);
      NameGroupsDistinct();
      CredentialGroupsDisjoint();
      LaterGroupsDisjoint();
      DockerCredentialNamesDistinct(secrets.docker);
      assert Distinct(a) && Disjoint(a, SparkNames) && Disjoint(a, DockerCredentialNames) && Disjoint(a, AztkNames);
      DistinctAppend(a, SparkNames);
      assert Disjoint(a + SparkNames, DockerCredentialNames);
      DisjointFromPool(a + SparkNames, c, DockerCredentialNames);
      DistinctAppend(a + SparkNames, c);
      DisjointFromPool(AztkNames, c, DockerCredentialNames);
      assert Disjoint(a + SparkNames + c, AztkNames);
      DistinctAppend(a + SparkNames + c, AztkNames);
    }
  }

  /** The shared-key names are passed through by the account group. */
  lemma SharedKeyNamesForwarded()
    ensures forall n :: n in SharedKeyNames ==> ("-e", PassThrough(n)) in AccountEnvironmentOptions()
  {
    var opts := AccountEnvironmentOptions();
    assert opts[3] == ("-e", PassThrough(SharedKeyNames[0]));
    assert opts[2] == ("-e", PassThrough(SharedKeyNames[1]));
    assert opts[4] == ("-e", PassThrough(SharedKeyNames[2]));
    assert opts[5] == ("-e", PassThrough(SharedKeyNames[3]));
    assert opts[6] == ("-e", PassThrough(SharedKeyNames[4]));
  }

  /** The service-principal names are passed through by the service-principal group. */
  lemma ServicePrincipalNamesForwarded()
    ensures forall n :: n in ServicePrincipalNames ==> ("-e", PassThrough(n)) in ServicePrincipalEnvironmentOptions()
  {
    var opts := ServicePrincipalEnvironmentOptions();
    assert forall k :: 0 <= k < 5 ==> opts[k] == ("-e", PassThrough(ServicePrincipalNames[k]));
  }

  /** The Spark names are passed through by the Spark group. */
  lemma SparkNamesForwarded()
    ensures forall n :: n in SparkNames ==> ("-e", PassThrough(n)) in SparkEnvironmentOptions()
  {
    var opts := SparkEnvironmentOptions();
    assert opts[0] == ("-e", PassThrough(SparkNames[0]));
    assert opts[1] == ("-e", PassThrough(SparkNames[1]));
    assert opts[4] == ("-e", PassThrough(SparkNames[2]));
    assert opts[2] == ("-e", PassThrough(SparkNames[3]));
    assert opts[3] == ("-e", PassThrough(SparkNames[4]));
  }

  /** The AZTK flag names are passed through by the node group. */
  lemma AztkNamesForwarded()
    ensures forall n :: n in AztkNames ==> ("-e", PassThrough(n)) in NodeEnvironmentOptions()
  {
    var opts := NodeEnvironmentOptions();
    assert opts[3] == ("-e", PassThrough(AztkNames[0]));
    assert opts[2] == ("-e", PassThrough(AztkNames[1]));
  }

  /**
   * The start task sets the AZTK flags and the Spark settings to the
   * request's and the constants' values, and keeps every credential and
   * registry setting.
   */
  lemma StartTaskEnvironmentSettings(consts: Constants, secrets: SecretsConfiguration,
                                     workerOnMaster: Option<bool>, mixedMode: bool)
    ensures var r := StartTaskEnvironment(consts, secrets, workerOnMaster, mixedMode);
            r.Ok? ==>
              && Sets(r.value, "AZTK_MIXED_MODE", Flag(mixedMode))
              && Sets(r.value, "AZTK_WORKER_ON_MASTER", Flag(workerOnMaster == Some(true)))
              && Sets(r.value, "SPARK_WEB_UI_PORT", Number(consts.webUiPort))
              && Sets(r.value, "SPARK_WORKER_UI_PORT", Number(consts.workerUiPort))
              && Sets(r.value, "SPARK_JOB_UI_PORT", Number(consts.jobUiPort))
              && Sets(r.value, "SPARK_CONTAINER_NAME", Text(consts.containerName))
              && Sets(r.value, "SPARK_SUBMIT_LOGS_FILE", Text(consts.submitLogsFile))
              && (forall e :: e in SecretsEnv(secrets).value ==> e in r.value)
              && (forall e :: e in DockerCredentials(secrets.docker) ==> e in r.value)
  {
  }

  /**
   * Each name of the start task's environment has one value; in particular
   * the AZTK flags have no value other than the request's.
   */
  lemma StartTaskEnvironmentSingleValued(consts: Constants, secrets: SecretsConfiguration,
                                         workerOnMaster: Option<bool>, mixedMode: bool)
    ensures var r := StartTaskEnvironment(consts, secrets, workerOnMaster, mixedMode);
            r.Ok? ==>
              && (forall name, v, w :: Sets(r.value, name, v) && Sets(r.value, name, w) ==> v == w)
              && (forall v :: Sets(r.value, "AZTK_MIXED_MODE", v) ==> v == Flag(mixedMode))
              && (forall v :: Sets(r.value, "AZTK_WORKER_ON_MASTER", v) ==> v == Flag(workerOnMaster == Some(true)))
  {
    var r := StartTaskEnvironment(consts, secrets, workerOnMaster, mixedMode);
    if r.Ok? {
      StartTaskEnvironmentNames(consts, secrets, workerOnMaster, mixedMode);
      StartTaskEnvironmentSettings(consts, secrets, workerOnMaster, mixedMode);
      forall name, v, w | Sets(r.value, name, v) && Sets(r.value, name, w)
        ensures v == w
      {
        SetsUnique(r.value, name, v, w);
      }
    }
  }

  /** Every credential, Spark and AZTK name has its pass-through among the fixed `-e` options. */
  lemma ForwardedNames()
    ensures forall n :: n in SharedKeyNames || n in ServicePrincipalNames || n in SparkNames || n in AztkNames
                        ==> ("-e", PassThrough(n)) in EnvironmentOptions()
  {
    SharedKeyNamesForwarded();
    ServicePrincipalNamesForwarded();
    SparkNamesForwarded();
    AztkNamesForwarded();
  }

  /** Every name of the start task's environment comes from one of the five name groups. */
  lemma StartTaskEnvironmentNameGroups(consts: Constants, secrets: SecretsConfiguration,
                                       workerOnMaster: Option<bool>, mixedMode: bool)
    ensures var r := StartTaskEnvironment(consts, secrets, workerOnMaster, mixedMode);
            r.Ok? ==>
              forall n :: n in Names(r.value) ==>
                n in SharedKeyNames || n in ServicePrincipalNames || n in SparkNames
                || n in DockerCredentialNames || n in AztkNames
  {
    var r := StartTaskEnvironment(consts, secrets, workerOnMaster, mixedMode);
    if r.Ok? {
      var secretsEnv, spark := SecretsEnv(secrets).value, SparkSettings(consts);
      var creds, aztk := DockerCredentials(secrets.docker), AztkEnvironment(workerOnMaster, mixedMode);
      NamesAppend(secretsEnv, spark);
      NamesAppend(secretsEnv + spark, creds);
      NamesAppend(secretsEnv + spark + creds, aztk);
      DockerCredentialNamesDistinct(secrets.docker);
    }
  }

  /**
   * Every setting of the start task's environment except the registry
   * credentials has a `-e NAME=$NAME` option among the fixed environment
   * options of the launch command.
   */
  lemma StartTaskEnvironmentForwarded(consts: Constants, secrets: SecretsConfiguration,
                                      workerOnMaster: Option<bool>, mixedMode: bool)
    ensures var r := StartTaskEnvironment(consts, secrets, workerOnMaster, mixedMode);
            r.Ok? ==>
              forall n :: n in Names(r.value) && n !in DockerCredentialNames ==>
                ("-e", PassThrough(n)) in EnvironmentOptions()
  {
    StartTaskEnvironmentNameGroups(consts, secrets, workerOnMaster, mixedMode);
    ForwardedNames();
  }
}

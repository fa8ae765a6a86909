/** The podman engine adapter: an object whose Append methods grow its lists
    and overwrite its lookup maps in place, and whose renderers build their
    argument vectors by looping over the lists. Each renderer is proved equal
    to the matching function of module CommandArgs. */
module Engine {
  import opened CommandArgs

  class Podman {
    var envVars: seq<Pair>
    var volMaps: seq<Pair>
    var volMapsAttr: map<string, string>
    var portMaps: seq<Pair>
    var portMapAddrs: map<string, string>
    var buildArgs: seq<Pair>

    /** The engine's fields as one value. */
    ghost function State(): Directives
      reads this
    {
      Directives(envVars, volMaps, volMapsAttr, portMaps, portMapAddrs, buildArgs)
    }

    /** The object invariant: every listed host path and host port has its
        entry in the lookup maps. */
    ghost predicate Valid()
      reads this
    {
      LookupsComplete(State())
    }

    /** An engine with no directives. */
    constructor ()
      ensures Valid() && State() == NoDirectives
    {
      envVars, volMaps, volMapsAttr := [], [], map[];
      portMaps, portMapAddrs, buildArgs := [], map[], [];
    }

    method AppendEnvVar(key: string, value: string)
      requires Valid()
      modifies this
      ensures Valid()
      ensures State() == WithEnvVar(old(State()), key, value)
    {
      envVars := envVars + [Pair(key, value)];
      AppendsKeepLookupsComplete(old(State()), key, value, "");
    }

    method AppendVolMap(hostVol: string, containerVol: string, mapAttrs: string)
      requires Valid()
      modifies this
      ensures Valid()
      ensures State() == WithVolMap(old(State()), hostVol, containerVol, mapAttrs)
      ensures hostVol in volMapsAttr && volMapsAttr[hostVol] == mapAttrs
    {
      volMaps := volMaps + [Pair(hostVol, containerVol)];
      volMapsAttr := volMapsAttr[hostVol := mapAttrs];
      AppendsKeepLookupsComplete(old(State()), hostVol, containerVol, mapAttrs);
    }

    method AppendPortMap(hostPort: string, containerPort: string, hostAddr: string)
      requires Valid()
      modifies this
      ensures Valid()
      ensures State() == WithPortMap(old(State()), hostPort, containerPort, hostAddr)
      ensures hostPort in portMapAddrs && portMapAddrs[hostPort] == hostAddr
    {
      portMaps := portMaps + [Pair(hostPort, containerPort)];
      portMapAddrs := portMapAddrs[hostPort := hostAddr];
      AppendsKeepLookupsComplete(old(State()), hostPort, containerPort, hostAddr);
    }

    method AppendBuildArg(name: string, value: string)
      requires Valid()
      modifies this
      ensures Valid()
      ensures State() == WithBuildArg(old(State()), name, value)
    {
      buildArgs := buildArgs + [Pair(name, value)];
      AppendsKeepLookupsComplete(old(State()), name, value, "");
    }

    method ToEnvVarArgs() returns (args: seq<string>)
      ensures args == EnvVarArgs(envVars)
    {
      args := [];
      for i := 0 to |envVars|
        invariant args == EnvVarArgs(envVars[..i])
      {
        var k := envVars[i].first;
        var v := envVars[i].second;
        var envVarDef := k + "=" + v;
        args := args + ["-e", envVarDef];
        assert envVars[..i + 1][..i] == envVars[..i];
      }
      assert envVars[..|envVars|] == envVars;
    }

    method ToVolMapArgs() returns (args: seq<string>)
      ensures args == VolMapArgs(volMaps, volMapsAttr)
    {
      args := [];
      for i := 0 to |volMaps|
        invariant args == VolMapArgs(volMaps[..i], volMapsAttr)
      {
        var hostVol := volMaps[i].first;
        var contVol := volMaps[i].second;
        var mapAttrs := if hostVol in volMapsAttr then volMapsAttr[hostVol] else "";
        var volMap := hostVol + ":" + contVol + ":" + mapAttrs;
        args := args + ["-v", volMap];
        assert volMaps[..i + 1][..i] == volMaps[..i];
      }
      assert volMaps[..|volMaps|] == volMaps;
    }

    method ToPortMapArgs() returns (args: seq<string>)
      ensures args == PortMapArgs(portMaps, portMapAddrs)
    {
      args := [];
      for i := 0 to |portMaps|
        invariant args == PortMapArgs(portMaps[..i], portMapAddrs)
      {
        var hostPort := portMaps[i].first;
        var containerPort := portMaps[i].second;
        var hostAddr := if hostPort in portMapAddrs then portMapAddrs[hostPort] else "";
        var portMap := hostAddr + ":" + hostPort + ":" + containerPort;
        args := args + ["-p", portMap];
        assert portMaps[..i + 1][..i] == portMaps[..i];
      }
      assert portMaps[..|portMaps|] == portMaps;
    }

    method ToBuildArgs() returns (args: seq<string>)
      ensures args == BuildArgs(buildArgs)
    {
      args := [];
      for i := 0 to |buildArgs|
        invariant args == BuildArgs(buildArgs[..i])
      {
        var name := buildArgs[i].first;
        var value := buildArgs[i].second;
        var buildArg := name + "=" + value;
        args := args + ["--build-arg", buildArg];
        assert buildArgs[..i + 1][..i] == buildArgs[..i];
      }
      assert buildArgs[..|buildArgs|] == buildArgs;
    }

    method GetRunCmd(containerName: string, entryPoint: string, image: string,
                     entryPointArgs: seq<string>) returns (runCmd: seq<string>)
      ensures runCmd == RunCmd(State(), containerName, entryPoint, image, entryPointArgs)
    {
      runCmd := ["run", "--name", containerName, "-it", "--privileged"];
      var envArgs := ToEnvVarArgs();
      runCmd := runCmd + envArgs;
      var portArgs := ToPortMapArgs();
      runCmd := runCmd + portArgs;
      var volArgs := ToVolMapArgs();
      runCmd := runCmd + volArgs;
      var ep := ["--entrypoint", entryPoint, image];
      ep := ep + entryPointArgs;
      runCmd := runCmd + ep;
    }

    method GetBuildCmd() returns (buildCmd: seq<string>)
      ensures buildCmd == BuildCmd(buildArgs)
    {
      buildCmd := ["build", "-t", "hc:latest"];
      var args := ToBuildArgs();
      buildCmd := buildCmd + args;
      buildCmd := buildCmd + ["."];
    }

    /** The executable every rendered command is handed to. */
    function GetExecName(): (name: string)
      ensures name == "podman"
    {
      "podman"
    }

    method GetEnvVars() returns (vars: seq<Pair>)
      ensures vars == envVars
    {
      vars := envVars;
    }

    method GetVolMaps() returns (vols: seq<Pair>)
      ensures vols == volMaps
    {
      vols := volMaps;
    }

    method GetPortMaps() returns (ports: seq<Pair>)
      ensures ports == portMaps
    {
      ports := portMaps;
    }
  }

  /** On a fresh engine, a host path appended twice renders two "-v" entries
      in append order, both with the attrs of the later append. */
  method VolMapOverwriteOnFreshEngine(hostVol: string, c1: string, a1: string, c2: string, a2: string)
    returns (args: seq<string>)
    ensures args == ["-v", hostVol + ":" + c1 + ":" + a2, "-v", hostVol + ":" + c2 + ":" + a2]
  {
    var ce := new Podman();
    ce.AppendVolMap(hostVol, c1, a1);
    ce.AppendVolMap(hostVol, c2, a2);
    args := ce.ToVolMapArgs();
    VolMapOverwrite(NoDirectives, hostVol, c1, a1, c2, a2);
  }
}

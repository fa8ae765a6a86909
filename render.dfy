/** The directives a podman engine accumulates, and the argument vectors it
    renders from them, as values. The class in podman.dfy is proved to compute
    exactly these functions; the lemmas here state what the rendered commands
    look like. String formatting is plain concatenation with ":" and "=", with
    no escaping, as the source's "%s:%s:%s" and "%s=%s" formats do. */
module CommandArgs {

  /** One stored directive: the source keeps each as a two-element slice. */
  datatype Pair = Pair(first: string, second: string)

  /** Everything an engine has accumulated: four ordered lists and the two
      lookup maps, keyed by host path and host port. */
  datatype Directives = Directives(
    envVars: seq<Pair>,
    volMaps: seq<Pair>,
    volMapsAttr: map<string, string>,
    portMaps: seq<Pair>,
    portMapAddrs: map<string, string>,
    buildArgs: seq<Pair>)

  /** A freshly created engine holds nothing. */
  const NoDirectives := Directives([], [], map[], [], map[], [])

  /** The image tag every build command uses. */
  const ImageTag := "hc:latest"

  /** Map lookup with the zero value for a missing key, as in Go. */
  function Lookup(m: map<string, string>, key: string): string
  {
    if key in m then m[key] else ""
  }

  /** "%s=%s": an environment-variable or build-arg definition. */
  function KeyValue(p: Pair): string
  {
    p.first + "=" + p.second
  }

  /** "%s:%s:%s" of host path, container path and the attrs currently
      stored for the host path. */
  function VolMapDef(p: Pair, attrs: map<string, string>): string
  {
    p.first + ":" + p.second + ":" + Lookup(attrs, p.first)
  }

  /** "%s:%s:%s" of the address currently stored for the host port, the host
      port and the container port: the address comes first. */
  function PortMapDef(p: Pair, addrs: map<string, string>): string
  {
    Lookup(addrs, p.first) + ":" + p.first + ":" + p.second
  }

  // ----- appends, as functions of the directives -----

  function WithEnvVar(d: Directives, key: string, value: string): Directives
  {
    d.(envVars := d.envVars + [Pair(key, value)])
  }

  function WithVolMap(d: Directives, hostVol: string, containerVol: string, mapAttrs: string): Directives
  {
    d.(volMaps := d.volMaps + [Pair(hostVol, containerVol)],
       volMapsAttr := d.volMapsAttr[hostVol := mapAttrs])
  }

  function WithPortMap(d: Directives, hostPort: string, containerPort: string, hostAddr: string): Directives
  {
    d.(portMaps := d.portMaps + [Pair(hostPort, containerPort)],
       portMapAddrs := d.portMapAddrs[hostPort := hostAddr])
  }

  function WithBuildArg(d: Directives, name: string, value: string): Directives
  {
    d.(buildArgs := d.buildArgs + [Pair(name, value)])
  }

  /** Every host path in the volume list has stored attrs and every host
      port in the port list has a stored address, so rendering never falls
      back to the zero value. */
  predicate LookupsComplete(d: Directives)
  {
    && (forall i :: 0 <= i < |d.volMaps| ==> d.volMaps[i].first in d.volMapsAttr)
    && (forall i :: 0 <= i < |d.portMaps| ==> d.portMaps[i].first in d.portMapAddrs)
  }

  // ----- renderers -----

  /** "-e", "K=V" for every environment variable, in append order,
      duplicates included. */
  function EnvVarArgs(envVars: seq<Pair>): (r: seq<string>)
    ensures |r| == 2 * |envVars|
    ensures forall i :: 0 <= i < |envVars| ==> r[2 * i] == "-e" && r[2 * i + 1] == KeyValue(envVars[i])
  {
    if envVars == [] then []
    else
      var n := |envVars| - 1;
      EnvVarArgs(envVars[..n]) + ["-e", KeyValue(envVars[n])]
  }

  /** "-v", "H:C:A" for every volume map in append order, A looked up by H
      at render time. */
  function VolMapArgs(volMaps: seq<Pair>, attrs: map<string, string>): (r: seq<string>)
    ensures |r| == 2 * |volMaps|
    ensures forall i :: 0 <= i < |volMaps| ==> r[2 * i] == "-v" && r[2 * i + 1] == VolMapDef(volMaps[i], attrs)
  {
    if volMaps == [] then []
    else
      var n := |volMaps| - 1;
      VolMapArgs(volMaps[..n], attrs) + ["-v", VolMapDef(volMaps[n], attrs)]
  }

  /** "-p", "ADDR:HP:CP" for every port map in append order, ADDR looked up
      by HP at render time. */
  function PortMapArgs(portMaps: seq<Pair>, addrs: map<string, string>): (r: seq<string>)
    ensures |r| == 2 * |portMaps|
    ensures forall i :: 0 <= i < |portMaps| ==> r[2 * i] == "-p" && r[2 * i + 1] == PortMapDef(portMaps[i], addrs)
  {
    if portMaps == [] then []
    else
      var n := |portMaps| - 1;
      PortMapArgs(portMaps[..n], addrs) + ["-p", PortMapDef(portMaps[n], addrs)]
  }

  /** "--build-arg", "N=V" for every build arg, in append order. */
  function BuildArgs(buildArgs: seq<Pair>): (r: seq<string>)
    ensures |r| == 2 * |buildArgs|
    ensures forall i :: 0 <= i < |buildArgs| ==> r[2 * i] == "--build-arg" && r[2 * i + 1] == KeyValue(buildArgs[i])
  {
    if buildArgs == [] then []
    else
      var n := |buildArgs| - 1;
      BuildArgs(buildArgs[..n]) + ["--build-arg", KeyValue(buildArgs[n])]
  }

  /** The fixed flags every run command starts with. */
  function RunPrefix(containerName: string): seq<string>
  {
    ["run", "--name", containerName, "-it", "--privileged"]
  }

  /** The run command: base flags, env flags, port flags, volume flags,
      the entrypoint block and the entrypoint arguments verbatim. */
  function RunCmd(d: Directives, containerName: string, entryPoint: string, image: string,
                  entryPointArgs: seq<string>): seq<string>
  {
    RunPrefix(containerName)
    + EnvVarArgs(d.envVars)
    + PortMapArgs(d.portMaps, d.portMapAddrs)
    + VolMapArgs(d.volMaps, d.volMapsAttr)
    + (["--entrypoint", entryPoint, image] + entryPointArgs)
  }

  /** The build command: "build -t hc:latest", the build args, then ".". */
  function BuildCmd(buildArgs: seq<Pair>): seq<string>
  {
    ["build", "-t", ImageTag] + BuildArgs(buildArgs) + ["."]
  }

  // ----- properties -----

  /** A fresh engine has complete lookups, and every append keeps them so:
      appending a volume or port map stores its attrs or address under the
      appended key. */
  lemma AppendsKeepLookupsComplete(d: Directives, a: string, b: string, c: string)
    requires LookupsComplete(d)
    ensures LookupsComplete(NoDirectives)
    ensures LookupsComplete(WithEnvVar(d, a, b)) && LookupsComplete(WithBuildArg(d, a, b))
    ensures var v := WithVolMap(d, a, b, c); LookupsComplete(v) && a in v.volMapsAttr && v.volMapsAttr[a] == c
    ensures var p := WithPortMap(d, a, b, c); LookupsComplete(p) && a in p.portMapAddrs && p.portMapAddrs[a] == c
  {
    var v := WithVolMap(d, a, b, c);
    forall i | 0 <= i < |v.volMaps| ensures v.volMaps[i].first in v.volMapsAttr {
      if i < |d.volMaps| { assert v.volMaps[i] == d.volMaps[i]; }
    }
    var p := WithPortMap(d, a, b, c);
    forall i | 0 <= i < |p.portMaps| ensures p.portMaps[i].first in p.portMapAddrs {
      if i < |d.portMaps| { assert p.portMaps[i] == d.portMaps[i]; }
    }
  }

  /** With complete lookups every rendered volume and port entry uses the
      stored value, never the zero-value fallback. */
  lemma CompleteLookupsNeverMiss(d: Directives)
    requires LookupsComplete(d)
    ensures var r := VolMapArgs(d.volMaps, d.volMapsAttr);
      forall i :: 0 <= i < |d.volMaps| ==>
        var h := d.volMaps[i].first;
        h in d.volMapsAttr && r[2 * i + 1] == h + ":" + d.volMaps[i].second + ":" + d.volMapsAttr[h]
    ensures var r := PortMapArgs(d.portMaps, d.portMapAddrs);
      forall i :: 0 <= i < |d.portMaps| ==>
        var h := d.portMaps[i].first;
        h in d.portMapAddrs && r[2 * i + 1] == d.portMapAddrs[h] + ":" + h + ":" + d.portMaps[i].second
  {
  }

  /** Appending a volume map adds one "-v" entry at the end and rewrites the
      attrs of every earlier entry with the same host path; entries with other
      host paths render as before. */
  lemma VolMapAppendRetroactive(d: Directives, hostVol: string, containerVol: string, mapAttrs: string)
    ensures var before := VolMapArgs(d.volMaps, d.volMapsAttr);
      var d' := WithVolMap(d, hostVol, containerVol, mapAttrs);
      var after := VolMapArgs(d'.volMaps, d'.volMapsAttr);
      && |after| == |before| + 2
      && after[|before|..] == ["-v", hostVol + ":" + containerVol + ":" + mapAttrs]
      && forall i :: 0 <= i < |d.volMaps| ==>
           after[2 * i] == before[2 * i]
           && after[2 * i + 1] == (if d.volMaps[i].first == hostVol
                                  then hostVol + ":" + d.volMaps[i].second + ":" + mapAttrs
                                  else before[2 * i + 1])
  {
    var d' := WithVolMap(d, hostVol, containerVol, mapAttrs);
    assert d'.volMaps[..|d.volMaps|] == d.volMaps;
  }

  /** Two appends with the same host path render two entries, both carrying
      the attrs of the second append. */
  lemma VolMapOverwrite(d: Directives, hostVol: string, c1: string, a1: string, c2: string, a2: string)
    ensures var d' := WithVolMap(WithVolMap(d, hostVol, c1, a1), hostVol, c2, a2);
      var r := VolMapArgs(d'.volMaps, d'.volMapsAttr);
      r[|r| - 4..] == ["-v", hostVol + ":" + c1 + ":" + a2, "-v", hostVol + ":" + c2 + ":" + a2]
  {
    var d' := WithVolMap(WithVolMap(d, hostVol, c1, a1), hostVol, c2, a2);
    var r := VolMapArgs(d'.volMaps, d'.volMapsAttr);
    var n := |d.volMaps|;
    assert d'.volMaps[n] == Pair(hostVol, c1) && d'.volMaps[n + 1] == Pair(hostVol, c2);
    assert Lookup(d'.volMapsAttr, hostVol) == a2;
    assert r[2 * n + 1] == VolMapDef(d'.volMaps[n], d'.volMapsAttr);
    assert r[2 * (n + 1) + 1] == VolMapDef(d'.volMaps[n + 1], d'.volMapsAttr);
  }

  /** Appending a port map adds one "-p" entry at the end and rewrites the
      address of every earlier entry with the same host port; entries with
      other host ports render as before. */
  lemma PortMapAppendRetroactive(d: Directives, hostPort: string, containerPort: string, hostAddr: string)
    ensures var before := PortMapArgs(d.portMaps, d.portMapAddrs);
      var d' := WithPortMap(d, hostPort, containerPort, hostAddr);
      var after := PortMapArgs(d'.portMaps, d'.portMapAddrs);
      && |after| == |before| + 2
      && after[|before|..] == ["-p", hostAddr + ":" + hostPort + ":" + containerPort]
      && forall i :: 0 <= i < |d.portMaps| ==>
           after[2 * i] == before[2 * i]
           && after[2 * i + 1] == (if d.portMaps[i].first == hostPort
                                  then hostAddr + ":" + hostPort + ":" + d.portMaps[i].second
                                  else before[2 * i + 1])
  {
    var d' := WithPortMap(d, hostPort, containerPort, hostAddr);
    assert d'.portMaps[..|d.portMaps|] == d.portMaps;
  }

  /** Two appends with the same host port render two entries, both carrying
      the address of the second append. */
  lemma PortMapOverwrite(d: Directives, hostPort: string, c1: string, a1: string, c2: string, a2: string)
    ensures var d' := WithPortMap(WithPortMap(d, hostPort, c1, a1), hostPort, c2, a2);
      var r := PortMapArgs(d'.portMaps, d'.portMapAddrs);
      r[|r| - 4..] == ["-p", a2 + ":" + hostPort + ":" + c1, "-p", a2 + ":" + hostPort + ":" + c2]
  {
    var d' := WithPortMap(WithPortMap(d, hostPort, c1, a1), hostPort, c2, a2);
    var r := PortMapArgs(d'.portMaps, d'.portMapAddrs);
    var n := |d.portMaps|;
    assert d'.portMaps[n] == Pair(hostPort, c1) && d'.portMaps[n + 1] == Pair(hostPort, c2);
    assert Lookup(d'.portMapAddrs, hostPort) == a2;
    assert r[2 * n + 1] == PortMapDef(d'.portMaps[n], d'.portMapAddrs);
    assert r[2 * (n + 1) + 1] == PortMapDef(d'.portMaps[n + 1], d'.portMapAddrs);
  }

  /** The run command's frame: it always starts with the five fixed flags,
      the entrypoint block follows the directives, the entrypoint arguments
      are its suffix, and its length is linear in the appends. */
  lemma RunCmdLayout(d: Directives, containerName: string, entryPoint: string, image: string,
                     entryPointArgs: seq<string>)
    ensures var r := RunCmd(d, containerName, entryPoint, image, entryPointArgs);
      var v := 5 + 2 * (|d.envVars| + |d.portMaps| + |d.volMaps|);
      && |r| == v + 3 + |entryPointArgs|
      && r[..5] == ["run", "--name", containerName, "-it", "--privileged"]
      && r[v..v + 3] == ["--entrypoint", entryPoint, image]
      && r[v + 3..] == entryPointArgs
  {
    RunParts(RunPrefix(containerName), EnvVarArgs(d.envVars), PortMapArgs(d.portMaps, d.portMapAddrs),
             VolMapArgs(d.volMaps, d.volMapsAttr), ["--entrypoint", entryPoint, image], entryPointArgs);
  }

  /** Between the fixed flags and the entrypoint block, the run command holds
      the env flags, then the port flags, then the volume flags. */
  lemma RunCmdSections(d: Directives, containerName: string, entryPoint: string, image: string,
                       entryPointArgs: seq<string>)
    ensures var r := RunCmd(d, containerName, entryPoint, image, entryPointArgs);
      var e := 5 + 2 * |d.envVars|;
      var p := e + 2 * |d.portMaps|;
      var v := p + 2 * |d.volMaps|;
      && v <= |r|
      && r[5..e] == EnvVarArgs(d.envVars)
      && r[e..p] == PortMapArgs(d.portMaps, d.portMapAddrs)
      && r[p..v] == VolMapArgs(d.volMaps, d.volMapsAttr)
  {
    RunParts(RunPrefix(containerName), EnvVarArgs(d.envVars), PortMapArgs(d.portMaps, d.portMapAddrs),
             VolMapArgs(d.volMaps, d.volMapsAttr), ["--entrypoint", entryPoint, image], entryPointArgs);
  }

  /** Where each part of the run command's concatenation sits. */
  lemma RunParts<T>(a: seq<T>, b: seq<T>, c: seq<T>, d: seq<T>, x: seq<T>, y: seq<T>)
    ensures var r := a + b + c + d + (x + y);
      var i, j, k := |a| + |b|, |a| + |b| + |c|, |a| + |b| + |c| + |d|;
      && |r| == k + |x| + |y|
      && r[..|a|] == a && r[|a|..i] == b && r[i..j] == c && r[j..k] == d
      && r[k..k + |x|] == x && r[k + |x|..] == y
  {
    var r := a + b + c + d + (x + y);
    var i, j, k := |a| + |b|, |a| + |b| + |c|, |a| + |b| + |c| + |d|;
    assert r[..k] == a + b + c + d;
    assert r[..j] == a + b + c;
    assert r[..i] == a + b;
    assert r[k..] == x + y;
  }

  /** Growing the second part of a five-part concatenation inserts the
      growth right after that part. */
  lemma GrowSecondPart<T>(a: seq<T>, b: seq<T>, z: seq<T>, c: seq<T>, d: seq<T>, e: seq<T>)
    ensures var r := a + b + c + d + e;
      |a| + |b| <= |r| && a + (b + z) + c + d + e == r[..|a| + |b|] + z + r[|a| + |b|..]
  {
    var r := a + b + c + d + e;
    assert r[..|a| + |b|] == a + b;
    assert r[|a| + |b|..] == c + d + e;
  }

  /** The build command's layout: "build -t hc:latest", the build args, and
      "." as its last element; its length is 4 + 2 * |buildArgs|. */
  lemma BuildCmdLayout(buildArgs: seq<Pair>)
    ensures var r := BuildCmd(buildArgs);
      && |r| == 4 + 2 * |buildArgs|
      && r[..3] == ["build", "-t", "hc:latest"]
      && r[3..|r| - 1] == BuildArgs(buildArgs)
      && r[|r| - 1] == "."
  {
  }

  /** An appended environment variable lands at the end of the env section
      of the run command; nothing else in the command moves or changes. */
  lemma RunCmdAfterEnvVar(d: Directives, key: string, value: string, containerName: string,
                          entryPoint: string, image: string, entryPointArgs: seq<string>)
    ensures var before := RunCmd(d, containerName, entryPoint, image, entryPointArgs);
      var cut := 5 + 2 * |d.envVars|;
      cut <= |before|
      && RunCmd(WithEnvVar(d, key, value), containerName, entryPoint, image, entryPointArgs)
         == before[..cut] + ["-e", key + "=" + value] + before[cut..]
  {
    var d' := WithEnvVar(d, key, value);
    assert d'.envVars[..|d.envVars|] == d.envVars;
    GrowSecondPart(RunPrefix(containerName), EnvVarArgs(d.envVars), ["-e", key + "=" + value],
                   PortMapArgs(d.portMaps, d.portMapAddrs), VolMapArgs(d.volMaps, d.volMapsAttr),
                   ["--entrypoint", entryPoint, image] + entryPointArgs);
  }

  /** An appended build arg lands just before the final "." of the build
      command; nothing else in the command moves or changes. */
  lemma BuildCmdAfterBuildArg(buildArgs: seq<Pair>, name: string, value: string)
    ensures var before := BuildCmd(buildArgs);
      BuildCmd(buildArgs + [Pair(name, value)])
      == before[..|before| - 1] + ["--build-arg", name + "=" + value, "."]
  {
    assert (buildArgs + [Pair(name, value)])[..|buildArgs|] == buildArgs;
  }

  /** A login-style run: one env var, one port map and one volume map
      render, in that order, between the base flags and the entrypoint. */
  lemma ExampleRunCmd()
    ensures var d := WithVolMap(WithPortMap(WithEnvVar(NoDirectives, "HOST_USER", "alice"),
                                            "8080", "8080", "127.0.0.1"),
                                "/home/alice/.kube", "/kube", "ro");
      RunCmd(d, "hc-x", "/entry", "img:latest", ["clusterLogin", "foo"])
      == ["run", "--name", "hc-x", "-it", "--privileged",
          "-e", "HOST_USER=alice",
          "-p", "127.0.0.1:8080:8080",
          "-v", "/home/alice/.kube:/kube:ro",
          "--entrypoint", "/entry", "img:latest", "clusterLogin", "foo"]
  {
    var env := [Pair("HOST_USER", "alice")];
    var ports := [Pair("8080", "8080")];
    var vols := [Pair("/home/alice/.kube", "/kube")];
    assert env[..0] == [] && ports[..0] == [] && vols[..0] == [];
    assert KeyValue(env[0]) == "HOST_USER=alice";
    assert PortMapDef(ports[0], map["8080" := "127.0.0.1"]) == "127.0.0.1:8080:8080";
    assert VolMapDef(vols[0], map["/home/alice/.kube" := "ro"]) == "/home/alice/.kube:/kube:ro";
    assert EnvVarArgs(env) == ["-e", "HOST_USER=alice"];
    assert PortMapArgs(ports, map["8080" := "127.0.0.1"]) == ["-p", "127.0.0.1:8080:8080"];
    assert VolMapArgs(vols, map["/home/alice/.kube" := "ro"]) == ["-v", "/home/alice/.kube:/kube:ro"];
    var d := WithVolMap(WithPortMap(WithEnvVar(NoDirectives, "HOST_USER", "alice"),
                                    "8080", "8080", "127.0.0.1"),
                        "/home/alice/.kube", "/kube", "ro");
    assert d.envVars == env && d.portMaps == ports && d.volMaps == vols;
    assert d.portMapAddrs == map["8080" := "127.0.0.1"] && d.volMapsAttr == map["/home/alice/.kube" := "ro"];
    assert RunCmd(d, "hc-x", "/entry", "img:latest", ["clusterLogin", "foo"])
           == RunPrefix("hc-x") + ["-e", "HOST_USER=alice"] + ["-p", "127.0.0.1:8080:8080"]
              + ["-v", "/home/alice/.kube:/kube:ro"] + (["--entrypoint", "/entry", "img:latest"] + ["clusterLogin", "foo"]);
  }
}

# hc container-engine command builder, in Dafny

This project models the container-engine command builder of `hc`. `hc` is a
command-line tool that builds and runs a privileged management container with
`podman` and gives an operator shell access to a cluster. The builder works
in three steps:

- A `podman` adapter takes a series of directives: environment variables,
  volume maps, port maps and build args.
- It renders them as the exact argument vectors passed to `podman build`
  and `podman run`.
- A small factory maps an engine name to an adapter, or returns an error.

The model has three modules:

- `CommandArgs` (render.dfy) holds the adapter's accumulated state as a
  value, `Directives`: four ordered lists of pairs and two lookup maps. One
  map goes from host path to volume attrs, the other from host port to host
  address. The module defines the appends and the renderers as functions of
  that value, and proves the properties of the rendered commands as lemmas:
  - flag shapes and counts;
  - section order;
  - the fixed prefix and suffix;
  - the retroactive overwrite of volume attrs and port addresses.
- `Engine` (podman.dfy) holds the class `Podman`. It has the source's six
  fields as `seq<Pair>` and `map<string, string>`:
  - The `Append*` methods change those fields in place. Each states its new
    state as the matching `CommandArgs.With*` of the old state, and each
    keeps the object invariant. The invariant is that every listed host path
    has attrs and every listed host port has an address.
  - Every renderer (`To*Args`, `GetRunCmd`, `GetBuildCmd`) builds its result
    with a loop or with appends to a local sequence, as the source does. Each
    is proved equal to the matching `CommandArgs` function.
  - Renderers and accessors have no `modifies` clause, so they cannot change
    the engine. Their results are functions of the current state, so two
    calls with no append in between give the same result.
- `EngineFactory` (factory.dfy) holds `CeFactory`, the factory's argument
  map, and `Create`.

Strings are `seq<char>`. Formatting is plain concatenation with `"="` and
`":"`, with no escaping, as Go's `"%s=%s"` and `"%s:%s:%s"` formats do.

A Go map lookup of a missing key yields the zero value `""`. `Lookup` models
that lookup, so rendering is defined on every state. A nil map and an empty
map behave the same for lookups and assignments here, so both are modelled
as `map[]`. The source creates the map lazily on the first append. The model
starts from `map[]` and updates it the same way.

The factory's `map[string]interface{}` is modelled as a map to `ArgValue`.
A value is either a string or a non-string. Go's comparison of an
`interface{}` with `"podman"` is true only for the string `"podman"`.

## Model

| member | source | states |
|---|---|---|
| `CommandArgs.EnvVarArgs` | internal/ce.go:62-71 | the env flags have exactly 2·n elements; entry i gives `"-e"` at 2i and `key=value` at 2i+1, in append order, duplicate keys included |
| `CommandArgs.VolMapArgs` | internal/ce.go:85-95 | the volume flags have exactly 2·n elements; entry i gives `"-v"` and `host:container:attrs`, where attrs is looked up by host path in the current map |
| `CommandArgs.PortMapArgs` | internal/ce.go:108-118 | the port flags have exactly 2·n elements; entry i gives `"-p"` and `addr:hostPort:containerPort`, address first, looked up by host port in the current map |
| `CommandArgs.BuildArgs` | internal/ce.go:125-134 | the build-arg flags have exactly 2·n elements; entry i gives `"--build-arg"` and `name=value`, in append order |
| `CommandArgs.AppendsKeepLookupsComplete` | internal/ce.go:73-106 | a fresh engine has complete lookups and every append keeps them; after a volume or port append, the appended key maps to the appended attrs or address |
| `CommandArgs.CompleteLookupsNeverMiss` | internal/ce.go:85-118 | when lookups are complete, every rendered volume and port entry uses the stored attrs or address and never the zero-value fallback |
| `CommandArgs.VolMapAppendRetroactive` | internal/ce.go:73-95 | a volume append adds `-v h:c:a` at the end; every earlier entry with host path h now shows attrs a; other entries are unchanged |
| `CommandArgs.VolMapOverwrite` | internal/ce.go:73-95 | appending (h,c1,a1) then (h,c2,a2) makes the last four tokens `-v h:c1:a2 -v h:c2:a2` |
| `CommandArgs.PortMapAppendRetroactive` | internal/ce.go:97-118 | a port append adds `-p a:hp:cp` at the end; every earlier entry with host port hp now shows address a; other entries are unchanged |
| `CommandArgs.PortMapOverwrite` | internal/ce.go:97-118 | appending (hp,c1,a1) then (hp,c2,a2) makes the last four tokens `-p a2:hp:c1 -p a2:hp:c2` |
| `CommandArgs.RunCmdLayout` | internal/ce.go:136-156 | the run command has length 8 + 2·(envs+ports+vols) + the number of entrypoint args; it starts with `run --name n -it --privileged`, then has `--entrypoint e img` right after the directives, and ends with the entrypoint args verbatim |
| `CommandArgs.RunCmdSections` | internal/ce.go:136-156 | between the base flags and the entrypoint block come the env flags, then the port flags, then the volume flags |
| `CommandArgs.RunCmdAfterEnvVar` | internal/ce.go:136-147 | an appended env var inserts exactly `-e k=v` at the end of the run command's env section; nothing else moves or changes |
| `CommandArgs.BuildCmdLayout` | internal/ce.go:174-183 | the build command has length 4 + 2·n; it starts with `build -t hc:latest`, then the build-arg flags, and its last element is `"."` |
| `CommandArgs.BuildCmdAfterBuildArg` | internal/ce.go:174-183 | an appended build arg inserts exactly `--build-arg n=v` just before the final `"."` |
| `CommandArgs.ExampleRunCmd` | internal/ce.go:136-156 | one env var, one port map and one volume map render as `run --name hc-x -it --privileged -e HOST_USER=alice -p 127.0.0.1:8080:8080 -v /home/alice/.kube:/kube:ro --entrypoint /entry img:latest clusterLogin foo` |
| `Engine.Podman.constructor` | internal/ce.go:53-55 | a new engine holds no directives and satisfies the lookup invariant |
| `Engine.Podman.AppendEnvVar` | internal/ce.go:57-60 | appends (key, value) to the env list and changes nothing else |
| `Engine.Podman.AppendVolMap` | internal/ce.go:73-83 | appends (host, container) to the volume list and sets the host path's attrs; the other lists and the port map are unchanged; the invariant is kept |
| `Engine.Podman.AppendPortMap` | internal/ce.go:97-106 | appends (hostPort, containerPort) to the port list and sets the host port's address; the other lists and the volume map are unchanged; the invariant is kept |
| `Engine.Podman.AppendBuildArg` | internal/ce.go:120-123 | appends (name, value) to the build-arg list and changes nothing else |
| `Engine.Podman.ToEnvVarArgs` | internal/ce.go:62-71 | the loop returns exactly `EnvVarArgs` of the current env list |
| `Engine.Podman.ToVolMapArgs` | internal/ce.go:85-95 | the loop returns exactly `VolMapArgs` of the current volume list and attrs map |
| `Engine.Podman.ToPortMapArgs` | internal/ce.go:108-118 | the loop returns exactly `PortMapArgs` of the current port list and address map |
| `Engine.Podman.ToBuildArgs` | internal/ce.go:125-134 | the loop returns exactly `BuildArgs` of the current build-arg list |
| `Engine.Podman.GetRunCmd` | internal/ce.go:136-156 | returns exactly `RunCmd` of the current state, so the layout lemmas above apply to it |
| `Engine.Podman.GetBuildCmd` | internal/ce.go:174-183 | returns exactly `BuildCmd` of the current build args |
| `Engine.Podman.GetExecName` | internal/ce.go:158-160 | the executable is always `"podman"` |
| `Engine.Podman.GetEnvVars` | internal/ce.go:162-164 | returns the current env list |
| `Engine.Podman.GetVolMaps` | internal/ce.go:166-168 | returns the current volume list |
| `Engine.Podman.GetPortMaps` | internal/ce.go:170-172 | returns the current port list |
| `Engine.VolMapOverwriteOnFreshEngine` | internal/ce.go:73-95 | on a new engine, appending (h,c1,a1) then (h,c2,a2) and rendering gives exactly `-v h:c1:a2 -v h:c2:a2` |
| `EngineFactory.CeFactory.Create` | internal/ce.go:36-42 | when `ceName` is the string `"podman"`, returns a new, empty, valid engine and no error; otherwise returns null and the error "container engine name is not supported" |

## Left out

- The `containerEngine` interface is not modelled as an abstract type, because traits are outside the Dafny subset used here. `podman` is its only implementation. `Create` returns a `Podman` directly.
- `NewCeFactory` is the datatype constructor `CeFactory(args)`. It has no behaviour beyond storing the map.
- `Engine.Podman.GetEnvVars`, `Engine.Podman.GetVolMaps` and `Engine.Podman.GetPortMaps` do not model aliasing. Go returns the engine's own slices, and a caller could write through them. Here sequences are values.
- In the source, `GetRunCmd` takes the entrypoint arguments as a variadic parameter. The model takes them as a `seq<string>`.
- Process execution, configuration loading, free-port allocation, logging and the cobra commands under cmd/ are not part of this model. They only supply the strings passed to the appends, or consume the argument vectors.
- The system's design describes the build tag as `<image>:latest`. The code hard-codes `hc:latest`, and the model follows the code (`CommandArgs.ImageTag`).

/** The container-engine factory: it looks up the engine name in its
    argument map and hands out a fresh podman adapter, or fails. */
module EngineFactory {
  import opened CommandArgs
  import opened Engine

  /** A value of the factory's argument map. Any value that is not a string
      never compares equal to the string "podman". */
  datatype ArgValue = Str(s: string) | NonString

  /** Go's error result: None stands for nil. */
  datatype Option<T> = None | Some(value: T)

  /** The message of the error the factory returns for an unsupported engine. */
  const UnsupportedEngine := "container engine name is not supported"

  /** The factory keeps the argument map it was built with. */
  datatype CeFactory = CeFactory(args: map<string, ArgValue>) {

    /** True exactly when "ceName" is present and is the string "podman". */
    predicate RequestsPodman()
    {
      "ceName" in args && args["ceName"] == Str("podman")
    }

    method Create() returns (ce: Podman?, err: Option<string>)
      ensures RequestsPodman() ==> ce != null && fresh(ce) && ce.Valid() && ce.State() == NoDirectives && err == None
      ensures !RequestsPodman() ==> ce == null && err == Some(UnsupportedEngine)
    {
      if RequestsPodman() {
        ce := new Podman();
        err := None;
      } else {
        ce := null;
        err := Some(UnsupportedEngine);
      }
    }
  }
}

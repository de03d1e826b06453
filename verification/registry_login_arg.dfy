/** `RegistryLoginArg`: the arguments of `helm registry login`. */
module RegistryLoginArgs {
  import opened Commands

  datatype RegistryLoginArg = RegistryLoginArg(host: string, username: string, password: string)

  /** The arguments `Into<Command>` gives helm. */
  function Argv(a: RegistryLoginArg): seq<string> {
    ["registry", "login", a.host, "--username", a.username, "--password", a.password]
  }

  /** `Into<Command>`: appends the verb, the host and the two credential pairs. */
  method IntoCommand(a: RegistryLoginArg) returns (cmd: Command)
    ensures fresh(cmd) && cmd.program == Helm && cmd.args == Argv(a)
  {
    cmd := new Command(Helm);
    cmd.Args(["registry"]);
    cmd.Args(["login"]);
    cmd.Arg(a.host);
    cmd.Args(["--username", a.username]);
    cmd.Args(["--password", a.password]);
  }

  /**
   * Seven arguments, no optional or output flag; the host is the third, and
   * each credential flag is immediately followed by its own value.
   */
  lemma Layout(a: RegistryLoginArg)
    ensures |Argv(a)| == 7 && Argv(a)[..2] == ["registry", "login"]
    ensures Argv(a)[2] == a.host
    ensures Argv(a)[3] == "--username" && Argv(a)[4] == a.username
    ensures Argv(a)[5] == "--password" && Argv(a)[6] == a.password
  {
  }
}

/** `RepoAddArg`: the request behind `helm repo add` with its optional flags. */
module RepoAddArgs {
  import opened Wrappers
  import opened Commands

  datatype RepoAddArg = RepoAddArg(
    chart: string,
    location: string,
    forceUpdate: Option<bool>,
    insecureSkipTlsVerify: Option<bool>,
    noUpdate: Option<bool>,
    caFile: Option<string>,
    certFile: Option<string>,
    keyFile: Option<string>,
    password: Option<string>,
    username: Option<string>)

  /** The six arguments every `repo add` starts with. */
  function Prefix(chart: string, location: string): seq<string> {
    ["repo", "add", chart, location, "--output", "json"]
  }

  /** `RepoAddArg::new`: chart and location, every option unset; helm then gets only the prefix. */
  function New(chart: string, location: string): (r: RepoAddArg)
    ensures r.chart == chart && r.location == location
    ensures r.forceUpdate == r.insecureSkipTlsVerify == r.noUpdate == None
    ensures r.caFile == r.certFile == r.keyFile == r.password == r.username == None
    ensures Argv(r) == Prefix(chart, location)
  {
    RepoAddArg(chart, location, None, None, None, None, None, None, None, None)
  }

  /** `set_force_update`: sets that option only. */
  function SetForceUpdate(a: RepoAddArg, value: bool): (r: RepoAddArg)
    ensures r.forceUpdate == Some(value) && r.(forceUpdate := a.forceUpdate) == a
  {
    a.(forceUpdate := Some(value))
  }

  /** `set_insecure_skip_tls_verify`: sets that option only. */
  function SetInsecureSkipTlsVerify(a: RepoAddArg, value: bool): (r: RepoAddArg)
    ensures r.insecureSkipTlsVerify == Some(value) && r.(insecureSkipTlsVerify := a.insecureSkipTlsVerify) == a
  {
    a.(insecureSkipTlsVerify := Some(value))
  }

  /** `set_no_update`: sets that option only. */
  function SetNoUpdate(a: RepoAddArg, value: bool): (r: RepoAddArg)
    ensures r.noUpdate == Some(value) && r.(noUpdate := a.noUpdate) == a
  {
    a.(noUpdate := Some(value))
  }

  /** `set_ca_file`: sets that option only. */
  function SetCaFile(a: RepoAddArg, value: string): (r: RepoAddArg)
    ensures r.caFile == Some(value) && r.(caFile := a.caFile) == a
  {
    a.(caFile := Some(value))
  }

  /** `set_cert_file`: sets that option only. */
  function SetCertFile(a: RepoAddArg, value: string): (r: RepoAddArg)
    ensures r.certFile == Some(value) && r.(certFile := a.certFile) == a
  {
    a.(certFile := Some(value))
  }

  /** `set_key_file`: sets that option only. */
  function SetKeyFile(a: RepoAddArg, value: string): (r: RepoAddArg)
    ensures r.keyFile == Some(value) && r.(keyFile := a.keyFile) == a
  {
    a.(keyFile := Some(value))
  }

  /** `set_password`: sets that option only. */
  function SetPassword(a: RepoAddArg, value: string): (r: RepoAddArg)
    ensures r.password == Some(value) && r.(password := a.password) == a
  {
    a.(password := Some(value))
  }

  /** `set_username`: sets that option only. */
  function SetUsername(a: RepoAddArg, value: string): (r: RepoAddArg)
    ensures r.username == Some(value) && r.(username := a.username) == a
  {
    a.(username := Some(value))
  }

  /**
   * The arguments `Into<Command>` gives helm: the prefix, the switches (each
   * only for `Some(true)`), then the string options as flag/value pairs (each
   * only when present), all in declared order.
   */
  function Argv(a: RepoAddArg): seq<string> {
    Prefix(a.chart, a.location)
    + OptSwitch(a.forceUpdate, "--force-update")
    + OptSwitch(a.insecureSkipTlsVerify, "--insecure-skip-tls-verify")
    + OptSwitch(a.noUpdate, "--no-update")
    + OptPair("--ca-file", a.caFile)
    + OptPair("--cert-file", a.certFile)
    + OptPair("--key-file", a.keyFile)
    + OptPair("--password", a.password)
    + OptPair("--username", a.username)
  }

  /** `Into<Command>`: the prefix, then one conditional append per option, in declared order. */
  method IntoCommand(a: RepoAddArg) returns (cmd: Command)
    ensures fresh(cmd) && cmd.program == Helm && cmd.args == Argv(a)
  {
    cmd := new Command(Helm);
    cmd.Args(["repo", "add", a.chart, a.location]);
    cmd.Args(["--output", "json"]);
    assert cmd.args == Prefix(a.chart, a.location);
    cmd.SwitchIfTrue(a.forceUpdate, "--force-update");
    cmd.SwitchIfTrue(a.insecureSkipTlsVerify, "--insecure-skip-tls-verify");
    cmd.SwitchIfTrue(a.noUpdate, "--no-update");
    cmd.PairIfSome("--ca-file", a.caFile);
    cmd.PairIfSome("--cert-file", a.certFile);
    cmd.PairIfSome("--key-file", a.keyFile);
    cmd.PairIfSome("--password", a.password);
    cmd.PairIfSome("--username", a.username);
  }

  /** How many of the three switches hold `Some(true)`. */
  function TrueCount(a: RepoAddArg): nat {
    SwitchWidth(a.forceUpdate) + SwitchWidth(a.insecureSkipTlsVerify) + SwitchWidth(a.noUpdate)
  }

  /** How many of the five string options are present. */
  function PresentCount(a: RepoAddArg): nat {
    Present(a.caFile) + Present(a.certFile) + Present(a.keyFile) + Present(a.password) + Present(a.username)
  }

  /**
   * The rendering starts with the six prefix tokens; its length is six, plus
   * one per `Some(true)` switch, plus two per present string option.
   */
  lemma Length(a: RepoAddArg)
    ensures Argv(a)[..6] == Prefix(a.chart, a.location)
    ensures |Argv(a)| == 6 + TrueCount(a) + 2 * PresentCount(a)
  {
    OptSwitchLength(a.forceUpdate, "--force-update");
    OptSwitchLength(a.insecureSkipTlsVerify, "--insecure-skip-tls-verify");
    OptSwitchLength(a.noUpdate, "--no-update");
    OptPairLength("--ca-file", a.caFile);
    OptPairLength("--cert-file", a.certFile);
    OptPairLength("--key-file", a.keyFile);
    OptPairLength("--password", a.password);
    OptPairLength("--username", a.username);
  }

  /** A switch set to `Some(false)` renders exactly as one left unset. */
  lemma FalseIsUnset(a: RepoAddArg)
    ensures Argv(a.(forceUpdate := Some(false))) == Argv(a.(forceUpdate := None))
    ensures Argv(a.(insecureSkipTlsVerify := Some(false))) == Argv(a.(insecureSkipTlsVerify := None))
    ensures Argv(a.(noUpdate := Some(false))) == Argv(a.(noUpdate := None))
  {
  }

  /** With every option on, helm receives the switches and then the pairs in the declared order. */
  lemma FullRendering(a: RepoAddArg, ca: string, cert: string, key: string, pw: string, user: string)
    ensures var full := RepoAddArg(a.chart, a.location, Some(true), Some(true), Some(true),
                                   Some(ca), Some(cert), Some(key), Some(pw), Some(user));
            Argv(full) == Prefix(a.chart, a.location)
                          + ["--force-update", "--insecure-skip-tls-verify", "--no-update",
                             "--ca-file", ca, "--cert-file", cert, "--key-file", key,
                             "--password", pw, "--username", user]
  {
  }

  /** Setting an option twice keeps only the last value. */
  lemma LastSetWins(a: RepoAddArg, b1: bool, b2: bool, s1: string, s2: string)
    ensures SetForceUpdate(SetForceUpdate(a, b1), b2) == SetForceUpdate(a, b2)
    ensures SetInsecureSkipTlsVerify(SetInsecureSkipTlsVerify(a, b1), b2) == SetInsecureSkipTlsVerify(a, b2)
    ensures SetNoUpdate(SetNoUpdate(a, b1), b2) == SetNoUpdate(a, b2)
    ensures SetCaFile(SetCaFile(a, s1), s2) == SetCaFile(a, s2)
    ensures SetCertFile(SetCertFile(a, s1), s2) == SetCertFile(a, s2)
    ensures SetKeyFile(SetKeyFile(a, s1), s2) == SetKeyFile(a, s2)
    ensures SetPassword(SetPassword(a, s1), s2) == SetPassword(a, s2)
    ensures SetUsername(SetUsername(a, s1), s2) == SetUsername(a, s2)
  {
  }
}

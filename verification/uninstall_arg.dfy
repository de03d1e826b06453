/** `UninstallArg`: the request behind `helm uninstall`. */
module UninstallArgs {
  import opened Wrappers
  import opened Commands

  datatype UninstallArg = UninstallArg(
    release: string,
    namespace: Option<string>,
    ignoreNotFound: bool,
    dryRun: bool,
    timeout: Option<string>)

  /** `UninstallArg::new`: only the release is set; helm is then given just `uninstall release`. */
  function New(release: string): (r: UninstallArg)
    ensures r.release == release && r.namespace == None && r.timeout == None
    ensures !r.ignoreNotFound && !r.dryRun
    ensures Argv(r) == ["uninstall", release]
  {
    UninstallArg(release, None, false, false, None)
  }

  /** `namespace`: sets the namespace and nothing else. */
  function WithNamespace(a: UninstallArg, ns: string): (r: UninstallArg)
    ensures r.namespace == Some(ns) && r.(namespace := a.namespace) == a
  {
    a.(namespace := Some(ns))
  }

  /** `ignore_not_found`: sets the flag and nothing else. */
  function WithIgnoreNotFound(a: UninstallArg): (r: UninstallArg)
    ensures r.ignoreNotFound && r.(ignoreNotFound := a.ignoreNotFound) == a
  {
    a.(ignoreNotFound := true)
  }

  /** `dry_run`: sets the flag and nothing else. */
  function WithDryRun(a: UninstallArg): (r: UninstallArg)
    ensures r.dryRun && r.(dryRun := a.dryRun) == a
  {
    a.(dryRun := true)
  }

  /** `timeout`: sets the timeout and nothing else. */
  function WithTimeout(a: UninstallArg, timeout: string): (r: UninstallArg)
    ensures r.timeout == Some(timeout) && r.(timeout := a.timeout) == a
  {
    a.(timeout := Some(timeout))
  }

  /** The arguments `From<UninstallArg> for Command` gives helm. */
  function Argv(a: UninstallArg): seq<string> {
    ["uninstall", a.release]
    + OptPair("--namespace", a.namespace)
    + Switch(a.dryRun, "--dry-run")
    + Pairs("--timeout", OptionItems(a.timeout))
  }

  /** `From<UninstallArg> for Command`, with its loop over the optional timeout. */
  method IntoCommand(a: UninstallArg) returns (cmd: Command)
    ensures fresh(cmd) && cmd.program == Helm && cmd.args == Argv(a)
  {
    cmd := new Command(Helm);
    cmd.Args(["uninstall", a.release]);
    cmd.PairIfSome("--namespace", a.namespace);
    if a.dryRun {
      cmd.Arg("--dry-run");
    }
    var head := cmd.args;
    var timeouts := OptionItems(a.timeout);
    for i := 0 to |timeouts|
      invariant cmd.args == head + Pairs("--timeout", timeouts[..i])
    {
      cmd.Arg("--timeout");
      cmd.Arg(timeouts[i]);
      assert timeouts[..i + 1][..i] == timeouts[..i];
    }
    assert timeouts[..|timeouts|] == timeouts;
  }

  /**
   * The release comes right after the verb; a namespace pair comes directly
   * after it, then `--dry-run`, then the timeout pair last; nothing else is
   * rendered.
   */
  lemma {:induction false} Layout(a: UninstallArg)
    ensures Argv(a)[..2] == ["uninstall", a.release]
    ensures |Argv(a)| == 2 + (if a.namespace.Some? then 2 else 0) + (if a.dryRun then 1 else 0)
                           + (if a.timeout.Some? then 2 else 0)
    ensures a.namespace.Some? ==> Argv(a)[2..4] == ["--namespace", a.namespace.value]
    ensures a.dryRun ==> Argv(a)[if a.namespace.Some? then 4 else 2] == "--dry-run"
    ensures a.timeout.Some? ==> Argv(a)[|Argv(a)| - 2..] == ["--timeout", a.timeout.value]
  {
    var t := Pairs("--timeout", OptionItems(a.timeout));
    if a.timeout.Some? {
      assert t == ["--timeout", a.timeout.value];
    }
  }

  /** `ignore_not_found` only steers the client; it never reaches helm's arguments. */
  lemma IgnoreNotFoundNotRendered(a: UninstallArg, b: bool)
    ensures Argv(a.(ignoreNotFound := b)) == Argv(a)
  {
  }
}

/**
 * `HelmClient`: one method per helm operation. Each builds its arguments,
 * runs helm once through the `Runner`, and interprets the result; read
 * operations check stderr before they decode stdout.
 */
module Client {
  import opened Wrappers
  import opened Text
  import opened Commands
  import opened Errors
  import opened Charts
  import opened InstalledCharts
  import opened Process
  import InstallArgs
  import UninstallArgs
  import RepoAddArgs
  import GetInstalledArgs
  import RegistryLoginArgs
  import ChartExportArgs
  import ChartPullArgs

  /** The stderr text that means helm could not reach the cluster. */
  const ConnectMarker := "Kubernetes cluster unreachable"

  /** The word `helm version` must print for the client to be created. */
  const VersionMarker := "version"

  /** The probe `new` runs. */
  const VersionCall := Invocation(Helm, ["version"])

  /** The run `get_helm_version` makes. */
  const ShortVersionCall := Invocation(Helm, ["version", "--short", "--output", "json"])

  /**
   * `check_helm_stderr`: empty stderr is fine; otherwise it must be UTF-8,
   * and it is a connection failure exactly when it contains the marker;
   * any other text is fine.
   */
  function CheckHelmStderr(stderr: seq<byte>, utf8: seq<byte> -> Option<string>): (r: Result<(), HelmError>)
    ensures stderr == [] ==> r == Success(())
    ensures stderr != [] && utf8(stderr).None? ==> r == Failure(Utf8Error)
    ensures stderr != [] && utf8(stderr).Some? ==>
              && (r == Failure(FailedToConnect) <==> Occurs(utf8(stderr).value, ConnectMarker))
              && (r == Success(()) <==> !Occurs(utf8(stderr).value, ConnectMarker))
  {
    if stderr == [] then Success(())
    else match utf8(stderr)
      case None => Failure(Utf8Error)
      case Some(text) =>
        ContainsOccurs(text, ConnectMarker);
        if Contains(text, ConnectMarker) then Failure(FailedToConnect) else Success(())
  }

  /**
   * What a read operation makes of its run: a run error passes through;
   * then stderr is checked; only a clean stderr lets stdout be decoded, and a
   * decoding failure becomes `Serde`.
   */
  function Interpret<T>(run: Result<Output, HelmError>, utf8: seq<byte> -> Option<string>,
                        decode: seq<byte> -> Result<seq<T>, string>): (r: Result<seq<T>, HelmError>)
    ensures run.Failure? ==> r == Failure(run.error)
    ensures r.Success? <==> run.Success? && CheckHelmStderr(run.value.stderr, utf8).Success?
                            && decode(run.value.stdout).Success?
    ensures r.Success? ==> r.value == decode(run.value.stdout).value
    ensures run.Success? && CheckHelmStderr(run.value.stderr, utf8).Success? && decode(run.value.stdout).Failure? ==>
              r == Failure(Serde(decode(run.value.stdout).error))
    ensures run.Success? && CheckHelmStderr(run.value.stderr, utf8).Failure? ==>
              r == Failure(CheckHelmStderr(run.value.stderr, utf8).error)
  {
    match run
    case Failure(e) => Failure(e)
    case Success(out) =>
      match CheckHelmStderr(out.stderr, utf8)
      case Failure(e) => Failure(e)
      case Success(_) =>
        match decode(out.stdout)
        case Success(records) => Success(records)
        case Failure(message) => Failure(Serde(message))
  }

  /** The stderr check comes first: the cluster-unreachable marker wins whatever stdout holds. */
  lemma ConnectFailureBeforeDecode<T>(stdout: seq<byte>, stderr: seq<byte>, utf8: seq<byte> -> Option<string>,
                                      decode: seq<byte> -> Result<seq<T>, string>)
    requires stderr != [] && utf8(stderr).Some? && Occurs(utf8(stderr).value, ConnectMarker)
    ensures Interpret(Success(Output(stdout, stderr)), utf8, decode) == Failure(FailedToConnect)
  {
  }

  /** How many records carry exactly this name and this version. */
  function CountMatches(charts: seq<Chart>, name: string, version: string): (n: nat)
    ensures n <= |charts|
  {
    if charts == [] then 0
    else
      var last := charts[|charts| - 1];
      CountMatches(charts[..|charts| - 1], name, version) + (if last.name == name && last.version == version then 1 else 0)
  }

  /** Some record matches both name and version exactly when the count is positive. */
  lemma {:induction false} CountMatchesPositive(charts: seq<Chart>, name: string, version: string)
    ensures CountMatches(charts, name, version) > 0 <==>
              exists i :: 0 <= i < |charts| && charts[i].name == name && charts[i].version == version
  {
    if charts != [] {
      var init := charts[..|charts| - 1];
      CountMatchesPositive(init, name, version);
      if exists i :: 0 <= i < |init| && init[i].name == name && init[i].version == version {
        var i :| 0 <= i < |init| && init[i].name == name && init[i].version == version;
        assert charts[i] == init[i];
      }
    }
  }

  /**
   * The check `new` makes of the `helm version` run: a run error passes
   * through, the output must be UTF-8, and it must contain "version";
   * otherwise the error carries the text.
   */
  function VersionProbe(run: Result<Output, HelmError>, utf8: seq<byte> -> Option<string>): (r: Result<(), HelmError>)
    ensures run.Failure? ==> r == Failure(run.error)
    ensures run.Success? && utf8(run.value.stdout).None? ==> r == Failure(Utf8Error)
    ensures r.Success? <==> run.Success? && utf8(run.value.stdout).Some? && Occurs(utf8(run.value.stdout).value, VersionMarker)
    ensures run.Success? && utf8(run.value.stdout).Some? && !Occurs(utf8(run.value.stdout).value, VersionMarker) ==>
              r == Failure(HelmVersionNotFound(utf8(run.value.stdout).value))
  {
    match run
    case Failure(e) => Failure(e)
    case Success(out) =>
      match utf8(out.stdout)
      case None => Failure(Utf8Error)
      case Some(text) =>
        ContainsOccurs(text, VersionMarker);
        if Contains(text, VersionMarker) then Success(()) else Failure(HelmVersionNotFound(text))
  }

  /** Either the call returns, or it panics. */
  datatype Outcome<T> = Returns(value: T) | Panics

  /** `&text[1..]` does not panic: the text is not empty and its first character is one byte in UTF-8. */
  predicate Sliceable(text: string) {
    |text| > 0 && text[0] < '\U{80}'
  }

  /**
   * `version_text[1..].trim()`: whatever the first character is, it is
   * dropped; the rest is returned without its surrounding whitespace.
   */
  function VersionText(text: string): (r: string)
    requires Sliceable(text)
    ensures exists i :: Surrounded(text[1..], r, i)
    ensures r == [] || (!IsWhitespace(r[0]) && !IsWhitespace(r[|r| - 1]))
  {
    Trim(text[1..])
  }

  /** A leading "v" is removed, and so is the trailing newline. */
  lemma VersionTextDropsV()
    ensures VersionText("v3.2.1\n") == "3.2.1"
  {
    var rest := "3.2.1\n";
    assert "v3.2.1\n"[1..] == rest;
    assert !IsWhitespace(rest[0]);
    assert TrimStart(rest) == rest;
    assert IsWhitespace(rest[5]) && rest[..5] == "3.2.1";
    assert !IsWhitespace("3.2.1"[4]);
    assert TrimEnd(rest) == TrimEnd("3.2.1") == "3.2.1";
  }

  /** Without a "v" the first digit is dropped all the same: "3.2.1" gives ".2.1". */
  lemma VersionTextDropsDigit()
    ensures VersionText("3.2.1") == ".2.1"
  {
    var rest := ".2.1";
    assert "3.2.1"[1..] == rest;
    assert !IsWhitespace(rest[0]) && !IsWhitespace(rest[3]);
    assert TrimStart(rest) == rest;
    assert TrimEnd(rest) == rest;
  }

  /**
   * What `get_helm_version` makes of its run: a start failure means helm is
   * not installed, the output must be UTF-8, the slice panics on text that
   * cannot lose its first byte, and otherwise the trimmed rest is returned.
   */
  function HelmVersion(run: Result<Output, string>, utf8: seq<byte> -> Option<string>): (r: Outcome<Result<string, HelmError>>)
    ensures run.Failure? ==> r == Returns(Failure(HelmNotInstalled(run.error)))
    ensures run.Success? && utf8(run.value.stdout).None? ==> r == Returns(Failure(Utf8Error))
    ensures run.Success? && utf8(run.value.stdout).Some? ==>
              var text := utf8(run.value.stdout).value;
              && (r.Panics? <==> !Sliceable(text))
              && (Sliceable(text) ==> r == Returns(Success(VersionText(text))))
  {
    match run
    case Failure(io) => Returns(Failure(HelmNotInstalled(io)))
    case Success(out) =>
      match utf8(out.stdout)
      case None => Returns(Failure(Utf8Error))
      case Some(text) => if Sliceable(text) then Returns(Success(VersionText(text))) else Panics
  }

  /** The arguments `get_installed_chart_by_name` gives helm. */
  function ByNameArgv(name: string, namespace: Option<string>): seq<string> {
    ["list", "--filter", "^" + name + "$", "--output", "json"] + OptPair("--namespace", namespace)
  }

  /**
   * The filter is the name anchored at both ends; the namespace pair is
   * appended only when a namespace is given.
   */
  lemma ByNameLayout(name: string, namespace: Option<string>)
    ensures var argv := ByNameArgv(name, namespace);
            && argv[..2] == ["list", "--filter"] && argv[3..5] == ["--output", "json"]
            && |argv[2]| == |name| + 2 && argv[2][0] == '^' && argv[2][|name| + 1] == '$'
            && argv[2][1..|name| + 1] == name
            && |argv| == (if namespace.Some? then 7 else 5)
            && (namespace.Some? ==> argv[5..] == ["--namespace", namespace.value])
  {
  }

  /** A write operation's result: `command.result()?; Ok(())`. */
  function Unit(run: Result<Output, HelmError>): (r: Result<(), HelmError>)
    ensures r.Success? <==> run.Success?
    ensures run.Failure? ==> r.error == run.error
  {
    if run.Failure? then Failure(run.error) else Success(())
  }

  /** The client. It holds nothing but the capabilities it was created with. */
  class HelmClient {
    const runner: Runner
    const decoders: Decoders

    /** `Self {}`: only reachable once the version probe has passed. */
    constructor (runner: Runner, decoders: Decoders)
      requires VersionProbe(runner.checked(VersionCall), decoders.utf8).Success?
      ensures this.runner == runner && this.decoders == decoders
    {
      this.runner := runner;
      this.decoders := decoders;
    }

    /** `HelmClient::new`: runs `helm version` and creates the client only if the probe passes. */
    static method New(runner: Runner, decoders: Decoders) returns (r: Result<HelmClient, HelmError>)
      modifies runner
      ensures runner.log == old(runner.log) + [VersionCall]
      ensures var probe := VersionProbe(runner.checked(VersionCall), decoders.utf8);
              && (r.Success? <==> probe.Success?)
              && (r.Failure? ==> r.error == probe.error)
      ensures r.Success? ==> fresh(r.value) && r.value.runner == runner && r.value.decoders == decoders
    {
      var command := new Command(Helm);
      command.Arg("version");
      assert command.args == ["version"];
      var output := runner.Result(command);
      if output.Failure? {
        return Failure(output.error);
      }
      var outStr := decoders.utf8(output.value.stdout);
      if outStr.None? {
        return Failure(Utf8Error);
      }
      ContainsOccurs(outStr.value, VersionMarker);
      if !Contains(outStr.value, VersionMarker) {
        return Failure(HelmVersionNotFound(outStr.value));
      }
      var client := new HelmClient(runner, decoders);
      return Success(client);
    }

    /** `registry`: runs the registry-login command. */
    method Registry(args: RegistryLoginArgs.RegistryLoginArg) returns (r: Result<(), HelmError>)
      modifies runner
      ensures runner.log == old(runner.log) + [Invocation(Helm, RegistryLoginArgs.Argv(args))]
      ensures r == Unit(runner.checked(Invocation(Helm, RegistryLoginArgs.Argv(args))))
    {
      var command := RegistryLoginArgs.IntoCommand(args);
      var output := runner.Result(command);
      if output.Failure? {
        return Failure(output.error);
      }
      return Success(());
    }

    /** `chart_pull`: runs the chart-pull command. */
    method ChartPull(args: ChartPullArgs.ChartPullArg) returns (r: Result<(), HelmError>)
      modifies runner
      ensures runner.log == old(runner.log) + [Invocation(Helm, ChartPullArgs.Argv(args))]
      ensures r == Unit(runner.checked(Invocation(Helm, ChartPullArgs.Argv(args))))
    {
      var command := ChartPullArgs.IntoCommand(args);
      var output := runner.Result(command);
      if output.Failure? {
        return Failure(output.error);
      }
      return Success(());
    }

    /** `export`: runs the chart-export command. */
    method Export(args: ChartExportArgs.ChartExportArg) returns (r: Result<(), HelmError>)
      modifies runner
      ensures runner.log == old(runner.log) + [Invocation(Helm, ChartExportArgs.Argv(args))]
      ensures r == Unit(runner.checked(Invocation(Helm, ChartExportArgs.Argv(args))))
    {
      var command := ChartExportArgs.IntoCommand(args);
      var output := runner.Result(command);
      if output.Failure? {
        return Failure(output.error);
      }
      return Success(());
    }

    /** `install`: runs the command `InstallArg::install()` builds. */
    method Install(args: InstallArgs.InstallArg) returns (r: Result<(), HelmError>)
      modifies runner
      ensures runner.log == old(runner.log) + [Invocation(Helm, InstallArgs.InstallArgv(args))]
      ensures r == Unit(runner.checked(Invocation(Helm, InstallArgs.InstallArgv(args))))
    {
      var command := InstallArgs.InstallCommand(args);
      var output := runner.Result(command);
      if output.Failure? {
        return Failure(output.error);
      }
      return Success(());
    }

    /** `upgrade`: runs the command `InstallArg::upgrade()` builds. */
    method Upgrade(args: InstallArgs.InstallArg) returns (r: Result<(), HelmError>)
      modifies runner
      ensures runner.log == old(runner.log) + [Invocation(Helm, InstallArgs.UpgradeArgv(args))]
      ensures r == Unit(runner.checked(Invocation(Helm, InstallArgs.UpgradeArgv(args))))
    {
      var command := InstallArgs.UpgradeCommand(args);
      var output := runner.Result(command);
      if output.Failure? {
        return Failure(output.error);
      }
      return Success(());
    }

    /**
     * `uninstall`: with `ignore_not_found`, first looks the release up; a
     * lookup error is returned, and an empty lookup returns Ok without
     * running the uninstall. In every other case exactly the command
     * rendered from the request is run.
     */
    method Uninstall(uninstall: UninstallArgs.UninstallArg) returns (r: Result<(), HelmError>)
      modifies runner
      ensures var lookup := Invocation(Helm, ByNameArgv(uninstall.release, uninstall.namespace));
              var remove := Invocation(Helm, UninstallArgs.Argv(uninstall));
              var found := Interpret(runner.checked(lookup), decoders.utf8, decoders.installed);
              if !uninstall.ignoreNotFound then
                runner.log == old(runner.log) + [remove] && r == Unit(runner.checked(remove))
              else if found.Failure? then
                runner.log == old(runner.log) + [lookup] && r == Failure(found.error)
              else if found.value == [] then
                runner.log == old(runner.log) + [lookup] && r == Success(())
              else
                runner.log == old(runner.log) + [lookup, remove] && r == Unit(runner.checked(remove))
    {
      if uninstall.ignoreNotFound {
        var appCharts := GetInstalledChartByName(uninstall.release, uninstall.namespace);
        if appCharts.Failure? {
          return Failure(appCharts.error);
        }
        if appCharts.value == [] {
          return Success(());
        }
      }
      var command := UninstallArgs.IntoCommand(uninstall);
      var output := runner.Result(command);
      if output.Failure? {
        return Failure(output.error);
      }
      return Success(());
    }

    /** `repo_add`: `repo add chart location --output json`. */
    method RepoAdd(chart: string, location: string) returns (r: Result<(), HelmError>)
      modifies runner
      ensures runner.log == old(runner.log) + [Invocation(Helm, ["repo", "add", chart, location, "--output", "json"])]
      ensures r == Unit(runner.checked(Invocation(Helm, ["repo", "add", chart, location, "--output", "json"])))
    {
      var command := new Command(Helm);
      command.Args(["repo", "add", chart, location]);
      command.Args(["--output", "json"]);
      assert command.args == ["repo", "add", chart, location, "--output", "json"];
      var output := runner.Result(command);
      if output.Failure? {
        return Failure(output.error);
      }
      return Success(());
    }

    /** `repo_add_with_optionals`: runs the command rendered from the `RepoAddArg`. */
    method RepoAddWithOptionals(optionals: RepoAddArgs.RepoAddArg) returns (r: Result<(), HelmError>)
      modifies runner
      ensures runner.log == old(runner.log) + [Invocation(Helm, RepoAddArgs.Argv(optionals))]
      ensures r == Unit(runner.checked(Invocation(Helm, RepoAddArgs.Argv(optionals))))
    {
      var command := RepoAddArgs.IntoCommand(optionals);
      var output := runner.Result(command);
      if output.Failure? {
        return Failure(output.error);
      }
      return Success(());
    }

    /** `repo_update`: `repo update --output json`. */
    method RepoUpdate() returns (r: Result<(), HelmError>)
      modifies runner
      ensures runner.log == old(runner.log) + [Invocation(Helm, ["repo", "update", "--output", "json"])]
      ensures r == Unit(runner.checked(Invocation(Helm, ["repo", "update", "--output", "json"])))
    {
      var command := new Command(Helm);
      command.Args(["repo", "update"]);
      command.Args(["--output", "json"]);
      assert command.args == ["repo", "update", "--output", "json"];
      var output := runner.Result(command);
      if output.Failure? {
        return Failure(output.error);
      }
      return Success(());
    }

    /** The shared tail of the read operations: run, check stderr, decode. */
    method Read<T>(command: Command, decode: seq<byte> -> Result<seq<T>, string>) returns (r: Result<seq<T>, HelmError>)
      modifies runner
      ensures runner.log == old(runner.log) + [Invocation(command.program, command.args)]
      ensures r == Interpret(runner.checked(Invocation(command.program, command.args)), decoders.utf8, decode)
    {
      var output := runner.Result(command);
      if output.Failure? {
        return Failure(output.error);
      }
      var checked := CheckHelmStderr(output.value.stderr, decoders.utf8);
      if checked.Failure? {
        return Failure(checked.error);
      }
      var decoded := decode(output.value.stdout);
      if decoded.Failure? {
        return Failure(Serde(decoded.error));
      }
      return Success(decoded.value);
    }

    /** `search_repo`: `search repo chart --version v --output json`, read as charts. */
    method SearchRepo(chart: string, version: string) returns (r: Result<seq<Chart>, HelmError>)
      modifies runner
      ensures runner.log == old(runner.log) + [Invocation(Helm, ["search", "repo", chart, "--version", version, "--output", "json"])]
      ensures r == Interpret(runner.checked(Invocation(Helm, ["search", "repo", chart, "--version", version, "--output", "json"])),
                             decoders.utf8, decoders.charts)
    {
      var command := new Command(Helm);
      command.Args(["search", "repo", chart]);
      command.Args(["--version", version]);
      command.Args(["--output", "json"]);
      assert command.args == ["search", "repo", chart, "--version", version, "--output", "json"];
      r := Read(command, decoders.charts);
    }

    /** `versions`: `search repo --versions chart --output json --devel`, read as charts. */
    method Versions(chart: string) returns (r: Result<seq<Chart>, HelmError>)
      modifies runner
      ensures runner.log == old(runner.log) + [Invocation(Helm, ["search", "repo", "--versions", chart, "--output", "json", "--devel"])]
      ensures r == Interpret(runner.checked(Invocation(Helm, ["search", "repo", "--versions", chart, "--output", "json", "--devel"])),
                             decoders.utf8, decoders.charts)
    {
      var command := new Command(Helm);
      command.Args(["search", "repo"]);
      command.Args(["--versions", chart]);
      command.Args(["--output", "json", "--devel"]);
      assert command.args == ["search", "repo", "--versions", chart, "--output", "json", "--devel"];
      r := Read(command, decoders.charts);
    }

    /**
     * `chart_version_exists`: searches, then reports whether some record has
     * both the name and the version asked for; search errors pass through.
     */
    method ChartVersionExists(name: string, version: string) returns (r: Result<bool, HelmError>)
      modifies runner
      ensures runner.log == old(runner.log) + [Invocation(Helm, ["search", "repo", name, "--version", version, "--output", "json"])]
      ensures var found := Interpret(runner.checked(Invocation(Helm, ["search", "repo", name, "--version", version, "--output", "json"])),
                                     decoders.utf8, decoders.charts);
              && (r.Failure? <==> found.Failure?)
              && (r.Failure? ==> r.error == found.error)
              && (r.Success? ==> (r.value <==> exists i :: 0 <= i < |found.value| && found.value[i].name == name
                                                             && found.value[i].version == version))
    {
      var versions := SearchRepo(name, version);
      if versions.Failure? {
        return Failure(versions.error);
      }
      var count := CountMatches(versions.value, name, version);
      CountMatchesPositive(versions.value, name, version);
      return Success(count > 0);
    }

    /** `get_installed_chart_by_name`: lists the releases whose name matches `^name$` exactly. */
    method GetInstalledChartByName(name: string, namespace: Option<string>) returns (r: Result<seq<InstalledChart>, HelmError>)
      modifies runner
      ensures runner.log == old(runner.log) + [Invocation(Helm, ByNameArgv(name, namespace))]
      ensures r == Interpret(runner.checked(Invocation(Helm, ByNameArgv(name, namespace))), decoders.utf8, decoders.installed)
    {
      var exactMatch := "^" + name + "$";
      var command := new Command(Helm);
      command.Arg("list");
      command.Arg("--filter");
      command.Arg(exactMatch);
      command.Args(["--output", "json"]);
      assert command.args == ["list", "--filter", exactMatch, "--output", "json"];
      if namespace.Some? {
        command.Args(["--namespace", namespace.value]);
      }
      assert command.args == ByNameArgv(name, namespace);
      r := Read(command, decoders.installed);
    }

    /** `list_installed`: runs the listing rendered from the `GetInstalledArg`, read as releases. */
    method ListInstalled(args: GetInstalledArgs.GetInstalledArg) returns (r: Result<seq<InstalledChart>, HelmError>)
      modifies runner
      ensures runner.log == old(runner.log) + [Invocation(Helm, GetInstalledArgs.Argv(args))]
      ensures r == Interpret(runner.checked(Invocation(Helm, GetInstalledArgs.Argv(args))), decoders.utf8, decoders.installed)
    {
      var command := GetInstalledArgs.IntoCommand(args);
      r := Read(command, decoders.installed);
    }

    /** `get_helm_version`: runs `helm version --short --output json` and slices the answer. */
    method GetHelmVersion() returns (r: Outcome<Result<string, HelmError>>)
      modifies runner
      ensures runner.log == old(runner.log) + [ShortVersionCall]
      ensures r == HelmVersion(runner.captured(ShortVersionCall), decoders.utf8)
    {
      var command := new Command(Helm);
      command.Arg("version");
      command.Arg("--short");
      command.Args(["--output", "json"]);
      assert command.args == ShortVersionCall.args;
      var helmVersion := runner.Output(command);
      if helmVersion.Failure? {
        return Returns(Failure(HelmNotInstalled(helmVersion.error)));
      }
      var versionText := decoders.utf8(helmVersion.value.stdout);
      if versionText.None? {
        return Returns(Failure(Utf8Error));
      }
      if !Sliceable(versionText.value) {
        return Panics;
      }
      return Returns(Success(VersionText(versionText.value)));
    }
  }
}

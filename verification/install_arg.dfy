/** `InstallArg`: the request behind `helm install` and `helm upgrade --install`. */
module InstallArgs {
  import opened Wrappers
  import opened Commands

  datatype InstallArg = InstallArg(
    name: string,
    chart: string,
    version: Option<string>,
    namespace: Option<string>,
    opts: seq<(string, string)>,
    values: Option<seq<string>>,
    develop: bool)

  /** `InstallArg::new`: name and chart only; `install()` then gives helm just `install name chart`. */
  function New(name: string, chart: string): (r: InstallArg)
    ensures r.name == name && r.chart == chart
    ensures r.version == None && r.namespace == None && r.opts == [] && r.values == None && !r.develop
    ensures InstallArgv(r) == ["install", name, chart]
  {
    InstallArg(name, chart, None, None, [], None, false)
  }

  /** `version`: sets the chart version and nothing else. */
  function WithVersion(a: InstallArg, version: string): (r: InstallArg)
    ensures r.version == Some(version) && r.(version := a.version) == a
  {
    a.(version := Some(version))
  }

  /** `namespace`: sets the namespace and nothing else. */
  function WithNamespace(a: InstallArg, ns: string): (r: InstallArg)
    ensures r.namespace == Some(ns) && r.(namespace := a.namespace) == a
  {
    a.(namespace := Some(ns))
  }

  /** `opts`: replaces the whole list of overrides and nothing else. */
  function WithOpts(a: InstallArg, options: seq<(string, string)>): (r: InstallArg)
    ensures r.opts == options && r.(opts := a.opts) == a
  {
    a.(opts := options)
  }

  /** `opt`: appends one override after the earlier ones, which stay as they were. */
  function WithOpt(a: InstallArg, key: string, value: string): (r: InstallArg)
    ensures |r.opts| == |a.opts| + 1 && r.opts[..|a.opts|] == a.opts && r.opts[|a.opts|] == (key, value)
    ensures r.(opts := a.opts) == a
  {
    a.(opts := a.opts + [(key, value)])
  }

  /** `develop`: turns the develop flag on and changes nothing else. */
  function WithDevelop(a: InstallArg): (r: InstallArg)
    ensures r.develop && r.(develop := a.develop) == a
  {
    a.(develop := true)
  }

  /** `values`: replaces the optional list of value files and nothing else. */
  function WithValues(a: InstallArg, values: Option<seq<string>>): (r: InstallArg)
    ensures r.values == values && r.(values := a.values) == a
  {
    a.(values := values)
  }

  /**
   * `value`: adds one value file at the end of the list, starting a list of
   * one when there was none; nothing else changes.
   */
  function WithValue(a: InstallArg, path: string): (r: InstallArg)
    ensures r.values.Some? && ValuePaths(r.values) == ValuePaths(a.values) + [path]
    ensures r.(values := a.values) == a
  {
    var list := if a.values.None? then [] else a.values.value;
    a.(values := Some(list + [path]))
  }

  /** The value files the request holds; none when the list is absent. */
  function ValuePaths(values: Option<seq<string>>): seq<string> {
    if values.Some? then values.value else []
  }

  /**
   * The argument following `--set` for one override: `key="val"` from
   * `apply_args`, plain `key=val` from `Into<Command>`.
   */
  function SetText(key: string, val: string, quoted: bool): string {
    if quoted then key + "=\"" + val + "\"" else key + "=" + val
  }

  /** The `--set` arguments for a list of overrides, in list order. */
  function SetTexts(opts: seq<(string, string)>, quoted: bool): (r: seq<string>)
    ensures |r| == |opts|
    ensures forall i :: 0 <= i < |opts| ==> r[i] == SetText(opts[i].0, opts[i].1, quoted)
  {
    seq(|opts|, i requires 0 <= i < |opts| => SetText(opts[i].0, opts[i].1, quoted))
  }

  /** The flags before the value files: the namespace pair, `--devel`, the version pair. */
  function LeadFlags(a: InstallArg): seq<string> {
    OptPair("--namespace", a.namespace) + Switch(a.develop, "--devel") + OptPair("--version", a.version)
  }

  /**
   * The flags both renderings put after their verb and positional arguments:
   * the namespace pair, `--devel`, the version pair, one `--values` pair per
   * file, then one `--set` pair per override.
   */
  function FlagArgs(a: InstallArg, quoted: bool): seq<string> {
    LeadFlags(a) + Pairs("--values", ValuePaths(a.values)) + Pairs("--set", SetTexts(a.opts, quoted))
  }

  /** The arguments `install()` gives helm. */
  function InstallArgv(a: InstallArg): seq<string> {
    ["install", a.name, a.chart] + FlagArgs(a, true)
  }

  /** The arguments `upgrade()` gives helm. */
  function UpgradeArgv(a: InstallArg): seq<string> {
    ["upgrade", "--install", a.name, a.chart, "--output", "json"] + FlagArgs(a, true)
  }

  /** The arguments `Into<Command>` gives helm. */
  function IntoArgv(a: InstallArg): seq<string> {
    ["install", a.name, a.chart, "--output", "json"] + FlagArgs(a, false)
  }

  /** `apply_args`: appends the flags, looping over the value files and then over the overrides. */
  method ApplyArgs(a: InstallArg, cmd: Command)
    modifies cmd
    ensures cmd.args == old(cmd.args) + FlagArgs(a, true)
  {
    AppendFlags(a, cmd, true);
  }

  /** The flag appends shared, line for line, by `apply_args` and `Into<Command>`. */
  method AppendFlags(a: InstallArg, cmd: Command, quoted: bool)
    modifies cmd
    ensures cmd.args == old(cmd.args) + FlagArgs(a, quoted)
  {
    cmd.PairIfSome("--namespace", a.namespace);
    if a.develop {
      cmd.Arg("--devel");
    }
    cmd.PairIfSome("--version", a.version);
    assert cmd.args == old(cmd.args) + LeadFlags(a);
    AppendValueFiles(cmd, ValuePaths(a.values));
    AppendAssoc(old(cmd.args), LeadFlags(a), Pairs("--values", ValuePaths(a.values)));
    AppendOverrides(cmd, a.opts, quoted);
    AppendAssoc(old(cmd.args), LeadFlags(a) + Pairs("--values", ValuePaths(a.values)),
                Pairs("--set", SetTexts(a.opts, quoted)));
  }

  /** The loop over the value files: `--values path` for each, in list order. */
  method AppendValueFiles(cmd: Command, paths: seq<string>)
    modifies cmd
    ensures cmd.args == old(cmd.args) + Pairs("--values", paths)
  {
    for i := 0 to |paths|
      invariant cmd.args == old(cmd.args) + Pairs("--values", paths[..i])
    {
      cmd.Arg("--values");
      cmd.Arg(paths[i]);
      assert paths[..i + 1][..i] == paths[..i];
      AppendAssoc(old(cmd.args), Pairs("--values", paths[..i]), ["--values", paths[i]]);
    }
    assert paths[..|paths|] == paths;
  }

  /** The loop over the overrides: `--set` and the rendered `key=value` for each, in insertion order. */
  method AppendOverrides(cmd: Command, opts: seq<(string, string)>, quoted: bool)
    modifies cmd
    ensures cmd.args == old(cmd.args) + Pairs("--set", SetTexts(opts, quoted))
  {
    ghost var sets := SetTexts(opts, quoted);
    for i := 0 to |opts|
      invariant cmd.args == old(cmd.args) + Pairs("--set", sets[..i])
    {
      var (key, val) := opts[i];
      cmd.Arg("--set");
      cmd.Arg(SetText(key, val, quoted));
      assert sets[..i + 1][..i] == sets[..i];
      AppendAssoc(old(cmd.args), Pairs("--set", sets[..i]), ["--set", sets[i]]);
    }
    assert sets[..|opts|] == sets;
  }

  /** `install()`: the verb, name and chart, then `apply_args`. */
  method InstallCommand(a: InstallArg) returns (cmd: Command)
    ensures fresh(cmd) && cmd.program == Helm && cmd.args == InstallArgv(a)
  {
    cmd := new Command(Helm);
    cmd.Args(["install", a.name, a.chart]);
    ApplyArgs(a, cmd);
  }

  /** `upgrade()`: `upgrade --install`, name and chart, the JSON output flag, then `apply_args`. */
  method UpgradeCommand(a: InstallArg) returns (cmd: Command)
    ensures fresh(cmd) && cmd.program == Helm && cmd.args == UpgradeArgv(a)
  {
    cmd := new Command(Helm);
    cmd.Args(["upgrade", "--install", a.name, a.chart]);
    cmd.Args(["--output", "json"]);
    ApplyArgs(a, cmd);
  }

  /** `Into<Command>`: like `install()` plus the JSON output flag, with unquoted overrides. */
  method IntoCommand(a: InstallArg) returns (cmd: Command)
    ensures fresh(cmd) && cmd.program == Helm && cmd.args == IntoArgv(a)
  {
    cmd := new Command(Helm);
    cmd.Args(["install", a.name, a.chart]);
    cmd.Args(["--output", "json"]);
    AppendFlags(a, cmd, false);
  }

  /** Offsets of the pieces of `FlagArgs`. */
  function NamespaceLen(a: InstallArg): nat { if a.namespace.Some? then 2 else 0 }
  function DevelLen(a: InstallArg): nat { if a.develop then 1 else 0 }
  function VersionLen(a: InstallArg): nat { if a.version.Some? then 2 else 0 }
  function LeadLen(a: InstallArg): nat { NamespaceLen(a) + DevelLen(a) + VersionLen(a) }

  /** The lead flags: the namespace pair, then `--devel`, then the version pair, each only when set. */
  lemma LeadLayout(a: InstallArg)
    ensures |LeadFlags(a)| == LeadLen(a)
    ensures a.namespace.Some? ==> LeadFlags(a)[..2] == ["--namespace", a.namespace.value]
    ensures a.develop ==> LeadFlags(a)[NamespaceLen(a)] == "--devel"
    ensures a.version.Some? ==> LeadFlags(a)[NamespaceLen(a) + DevelLen(a)..] == ["--version", a.version.value]
  {
  }

  /** The flags split into the lead flags, the value-file pairs and the override pairs, in that order. */
  lemma FlagPieces(a: InstallArg, quoted: bool)
    ensures var f := FlagArgs(a, quoted);
            var setAt := LeadLen(a) + 2 * |ValuePaths(a.values)|;
            && |f| == setAt + 2 * |a.opts|
            && f[..LeadLen(a)] == LeadFlags(a)
            && f[LeadLen(a)..setAt] == Pairs("--values", ValuePaths(a.values))
            && f[setAt..] == Pairs("--set", SetTexts(a.opts, quoted))
  {
    LeadLayout(a);
    var lead := LeadFlags(a);
    var vals := Pairs("--values", ValuePaths(a.values));
    assert FlagArgs(a, quoted) == (lead + vals) + Pairs("--set", SetTexts(a.opts, quoted));
    assert (lead + vals)[..|lead|] == lead;
  }

  /** The lead flags open the rendering: the namespace pair, then `--devel`, then the version pair. */
  lemma LeadFlagsFirst(a: InstallArg, quoted: bool)
    ensures |FlagArgs(a, quoted)| == LeadLen(a) + 2 * |ValuePaths(a.values)| + 2 * |a.opts|
    ensures a.namespace.Some? ==> FlagArgs(a, quoted)[..2] == ["--namespace", a.namespace.value]
    ensures a.develop ==> FlagArgs(a, quoted)[NamespaceLen(a)] == "--devel"
    ensures a.version.Some? ==>
              FlagArgs(a, quoted)[NamespaceLen(a) + DevelLen(a)..LeadLen(a)] == ["--version", a.version.value]
  {
    FlagPieces(a, quoted);
    LeadLayout(a);
    var f := FlagArgs(a, quoted);
    var lead := f[..LeadLen(a)];
    if a.namespace.Some? {
      assert f[..2] == lead[..2];
    }
    if a.version.Some? {
      assert f[NamespaceLen(a) + DevelLen(a)..LeadLen(a)] == lead[NamespaceLen(a) + DevelLen(a)..];
    }
  }

  /** After the lead flags comes one `--values` pair per file, in list order. */
  lemma ValueFilesNext(a: InstallArg, quoted: bool)
    ensures var paths := ValuePaths(a.values);
            forall i :: 0 <= i < |paths| ==>
              && LeadLen(a) + 2 * i + 1 < |FlagArgs(a, quoted)|
              && FlagArgs(a, quoted)[LeadLen(a) + 2 * i] == "--values"
              && FlagArgs(a, quoted)[LeadLen(a) + 2 * i + 1] == paths[i]
  {
    LeadLayout(a);
    var paths := ValuePaths(a.values);
    var sets := Pairs("--set", SetTexts(a.opts, quoted));
    forall i | 0 <= i < |paths|
      ensures && LeadLen(a) + 2 * i + 1 < |FlagArgs(a, quoted)|
              && FlagArgs(a, quoted)[LeadLen(a) + 2 * i] == "--values"
              && FlagArgs(a, quoted)[LeadLen(a) + 2 * i + 1] == paths[i]
    {
      PairsWithin(LeadFlags(a), "--values", paths, sets, i);
    }
  }

  /** The rendering ends with one `--set` pair per override, in insertion order. */
  lemma OverridesLast(a: InstallArg, quoted: bool)
    ensures var setAt := LeadLen(a) + 2 * |ValuePaths(a.values)|;
            forall i :: 0 <= i < |a.opts| ==>
              && setAt + 2 * i + 1 < |FlagArgs(a, quoted)|
              && FlagArgs(a, quoted)[setAt + 2 * i] == "--set"
              && FlagArgs(a, quoted)[setAt + 2 * i + 1] == SetText(a.opts[i].0, a.opts[i].1, quoted)
  {
    LeadLayout(a);
    var before := LeadFlags(a) + Pairs("--values", ValuePaths(a.values));
    var texts := SetTexts(a.opts, quoted);
    forall i | 0 <= i < |a.opts|
      ensures && |before| + 2 * i + 1 < |FlagArgs(a, quoted)|
              && FlagArgs(a, quoted)[|before| + 2 * i] == "--set"
              && FlagArgs(a, quoted)[|before| + 2 * i + 1] == SetText(a.opts[i].0, a.opts[i].1, quoted)
    {
      PairsAtEnd(before, "--set", texts, i);
    }
  }

  /** With both a version and the develop flag set, `--devel` and the version pair are both rendered. */
  lemma DevelAndVersion(a: InstallArg)
    requires a.develop && a.version.Some?
    ensures var f := FlagArgs(a, true);
            f[NamespaceLen(a)..NamespaceLen(a) + 3] == ["--devel", "--version", a.version.value]
  {
    LeadFlagsFirst(a, true);
    var f := FlagArgs(a, true);
    assert f[NamespaceLen(a)..NamespaceLen(a) + 3] == [f[NamespaceLen(a)]] + f[NamespaceLen(a) + 1..LeadLen(a)];
  }

  /** Absent value files add nothing: an absent list renders like an empty one. */
  lemma NoValuesNoTokens(a: InstallArg, quoted: bool)
    requires a.values.None?
    ensures FlagArgs(a, quoted) == FlagArgs(a.(values := Some([])), quoted)
    ensures |FlagArgs(a, quoted)| == LeadLen(a) + 2 * |a.opts|
  {
  }

  /** `upgrade()` differs from `install()` only in its head; the flags after name and chart are the same. */
  lemma UpgradeSharesFlags(a: InstallArg)
    ensures UpgradeArgv(a)[..6] == ["upgrade", "--install", a.name, a.chart, "--output", "json"]
    ensures UpgradeArgv(a)[6..] == InstallArgv(a)[3..]
  {
  }

  /**
   * The two flag renderings agree up to the overrides, and each override is
   * `--set` followed by `key="val"` (quoted) or `key=val` (unquoted).
   */
  lemma QuotingOnlyDifference(a: InstallArg)
    ensures var q := FlagArgs(a, true);
            var p := FlagArgs(a, false);
            var setAt := LeadLen(a) + 2 * |ValuePaths(a.values)|;
            && |p| == |q| == setAt + 2 * |a.opts|
            && p[..setAt] == q[..setAt]
            && (forall i :: 0 <= i < |a.opts| ==>
                  && p[setAt + 2 * i] == q[setAt + 2 * i] == "--set"
                  && p[setAt + 2 * i + 1] == a.opts[i].0 + "=" + a.opts[i].1
                  && q[setAt + 2 * i + 1] == a.opts[i].0 + "=\"" + a.opts[i].1 + "\"")
  {
    SameFlagsBeforeOverrides(a);
    OverridesLast(a, true);
    OverridesLast(a, false);
  }

  /** Quoting touches only the overrides: both renderings have the same length and the same flags before them. */
  lemma SameFlagsBeforeOverrides(a: InstallArg)
    ensures var setAt := LeadLen(a) + 2 * |ValuePaths(a.values)|;
            && |FlagArgs(a, false)| == |FlagArgs(a, true)| == setAt + 2 * |a.opts|
            && FlagArgs(a, false)[..setAt] == FlagArgs(a, true)[..setAt]
  {
    FlagPieces(a, true);
    FlagPieces(a, false);
    var setAt := LeadLen(a) + 2 * |ValuePaths(a.values)|;
    var q := FlagArgs(a, true);
    var p := FlagArgs(a, false);
    assert q[..setAt] == q[..LeadLen(a)] + q[LeadLen(a)..setAt];
    assert p[..setAt] == p[..LeadLen(a)] + p[LeadLen(a)..setAt];
  }

  /**
   * `Into<Command>` differs from `install()` in two ways only: it inserts
   * `--output json` after the chart, and its flags are the unquoted
   * rendering where `install()` has the quoted one (see
   * `QuotingOnlyDifference`); the flags before the overrides are identical.
   */
  lemma IntoDiffersFromInstall(a: InstallArg)
    ensures |IntoArgv(a)| == |InstallArgv(a)| + 2
    ensures IntoArgv(a)[..5] == InstallArgv(a)[..3] + ["--output", "json"]
    ensures IntoArgv(a)[5..] == FlagArgs(a, false)
    ensures InstallArgv(a)[3..] == FlagArgs(a, true)
    ensures var setAt := LeadLen(a) + 2 * |ValuePaths(a.values)|;
            IntoArgv(a)[5..5 + setAt] == InstallArgv(a)[3..3 + setAt]
  {
    SameFlagsBeforeOverrides(a);
    var setAt := LeadLen(a) + 2 * |ValuePaths(a.values)|;
    var head := ["install", a.name, a.chart];
    var p := FlagArgs(a, false);
    var q := FlagArgs(a, true);
    assert IntoArgv(a) == (head + ["--output", "json"]) + p;
    assert IntoArgv(a)[5..] == p;
    assert InstallArgv(a)[3..] == q;
    assert IntoArgv(a)[5..5 + setAt] == p[..setAt];
    assert InstallArgv(a)[3..3 + setAt] == q[..setAt];
  }

  /** `opt` adds exactly one `--set key="value"` pair at the very end of `install()`'s arguments. */
  lemma WithOptAppendsSet(a: InstallArg, key: string, value: string)
    ensures InstallArgv(WithOpt(a, key, value)) == InstallArgv(a) + ["--set", SetText(key, value, true)]
  {
    var b := WithOpt(a, key, value);
    assert SetTexts(b.opts, true) == SetTexts(a.opts, true) + [SetText(key, value, true)];
    assert SetTexts(b.opts, true)[..|a.opts|] == SetTexts(a.opts, true);
  }

  /** `value` adds exactly one `--values path` pair, right after the files already listed. */
  lemma WithValueAppendsFile(a: InstallArg, path: string, quoted: bool)
    ensures var paths := ValuePaths(a.values);
            var before := LeadLen(a) + 2 * |paths|;
            FlagArgs(WithValue(a, path), quoted)
              == FlagArgs(a, quoted)[..before] + ["--values", path] + FlagArgs(a, quoted)[before..]
  {
    var b := WithValue(a, path);
    var paths := ValuePaths(a.values);
    assert ValuePaths(b.values)[..|paths|] == paths;
    assert |LeadFlags(a)| == LeadLen(a);
    assert LeadFlags(b) == LeadFlags(a);
    var f := FlagArgs(a, quoted);
    var before := LeadLen(a) + 2 * |paths|;
    assert f[..before] == LeadFlags(a) + Pairs("--values", paths);
    assert f[before..] == Pairs("--set", SetTexts(a.opts, quoted));
  }
}

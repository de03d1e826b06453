/** `ChartPullArg`: the arguments of `helm chart pull`. */
module ChartPullArgs {
  import opened Commands

  datatype ChartPullArg = ChartPullArg(chart: string, version: string)

  /** The arguments `Into<Command>` gives helm. */
  function Argv(a: ChartPullArg): seq<string> {
    ["chart", "pull", ChartRef(a.chart, a.version)]
  }

  /** `Into<Command>`: the verb, then the `chart:version` token, appended in one chain. */
  method IntoCommand(a: ChartPullArg) returns (cmd: Command)
    ensures fresh(cmd) && cmd.program == Helm && cmd.args == Argv(a)
  {
    var chartWithVersion := ChartRef(a.chart, a.version);
    cmd := new Command(Helm);
    cmd.Args(["chart", "pull"]);
    cmd.Args([chartWithVersion]);
  }

  /**
   * Three arguments and no flag; the last starts with `chart:` and ends with
   * `:version`.
   */
  lemma Layout(a: ChartPullArg)
    ensures |Argv(a)| == 3 && Argv(a)[..2] == ["chart", "pull"]
    ensures Argv(a)[2][..|a.chart| + 1] == a.chart + ":"
    ensures Argv(a)[2][|a.chart|..] == ":" + a.version
  {
  }
}

/** `PullArg`: an older copy of `ChartPullArg` with the same rendering. */
module PullArgs {
  import opened Commands
  import ChartPullArgs

  datatype PullArg = PullArg(chart: string, version: string)

  /** The arguments `Into<Command>` gives helm. */
  function Argv(a: PullArg): seq<string> {
    ["chart", "pull", ChartRef(a.chart, a.version)]
  }

  /** `Into<Command>`: "chart" and "pull" appended separately, then the reference token. */
  method IntoCommand(a: PullArg) returns (cmd: Command)
    ensures fresh(cmd) && cmd.program == Helm && cmd.args == Argv(a)
  {
    cmd := new Command(Helm);
    cmd.Args(["chart"]);
    cmd.Args(["pull"]);
    cmd.Args([ChartRef(a.chart, a.version)]);
  }

  /** Three arguments, the last being `chart:version`. */
  lemma Layout(a: PullArg)
    ensures |Argv(a)| == 3 && Argv(a)[..2] == ["chart", "pull"]
    ensures Argv(a)[2] == a.chart + ":" + a.version
  {
  }

  /** For equal fields, the two pull requests give helm the same arguments. */
  lemma SameAsChartPull(a: PullArg)
    ensures Argv(a) == ChartPullArgs.Argv(ChartPullArgs.ChartPullArg(a.chart, a.version))
  {
  }
}

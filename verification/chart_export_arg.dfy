/** `ChartExportArg`: the arguments of `helm chart export`. */
module ChartExportArgs {
  import opened Commands

  datatype ChartExportArg = ChartExportArg(chart: string, version: string, destination: string)

  /** The arguments `Into<Command>` gives helm. */
  function Argv(a: ChartExportArg): seq<string> {
    ["chart", "export", ChartRef(a.chart, a.version), "--destination", a.destination]
  }

  /** `Into<Command>`: the verb, the `chart:version` token, then the destination pair. */
  method IntoCommand(a: ChartExportArg) returns (cmd: Command)
    ensures fresh(cmd) && cmd.program == Helm && cmd.args == Argv(a)
  {
    cmd := new Command(Helm);
    cmd.Args(["chart", "export"]);
    cmd.Args([ChartRef(a.chart, a.version)]);
    cmd.Arg("--destination");
    cmd.Arg(a.destination);
  }

  /**
   * Five arguments; the third starts with `chart:` and ends with `:version`;
   * the destination is the last one, unchanged.
   */
  lemma Layout(a: ChartExportArg)
    ensures |Argv(a)| == 5 && Argv(a)[..2] == ["chart", "export"]
    ensures Argv(a)[2][..|a.chart| + 1] == a.chart + ":"
    ensures Argv(a)[2][|a.chart|..] == ":" + a.version
    ensures Argv(a)[3] == "--destination" && Argv(a)[4] == a.destination
  {
  }

  /** With a chart name free of `:`, the reference token determines chart and version. */
  lemma RefDeterminesChart(a: ChartExportArg)
    requires ':' !in a.chart
    ensures SplitRef(Argv(a)[2]) == (a.chart, a.version)
  {
    SplitChartRef(a.chart, a.version);
  }
}

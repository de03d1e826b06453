/** `ExportArg`: an older copy of `ChartExportArg` with the same rendering. */
module ExportArgs {
  import opened Commands
  import ChartExportArgs

  datatype ExportArg = ExportArg(chart: string, version: string, destination: string)

  /** The arguments `Into<Command>` gives helm. */
  function Argv(a: ExportArg): seq<string> {
    ["chart", "export", ChartRef(a.chart, a.version), "--destination", a.destination]
  }

  /** `Into<Command>`: "chart" and "export" appended separately, then the reference and the destination. */
  method IntoCommand(a: ExportArg) returns (cmd: Command)
    ensures fresh(cmd) && cmd.program == Helm && cmd.args == Argv(a)
  {
    cmd := new Command(Helm);
    cmd.Args(["chart"]);
    cmd.Args(["export"]);
    cmd.Args([ChartRef(a.chart, a.version)]);
    cmd.Arg("--destination");
    cmd.Arg(a.destination);
  }

  /** Five arguments; the third is the `chart:version` token; the destination is last. */
  lemma Layout(a: ExportArg)
    ensures |Argv(a)| == 5 && Argv(a)[..2] == ["chart", "export"]
    ensures Argv(a)[2] == a.chart + ":" + a.version
    ensures Argv(a)[3] == "--destination" && Argv(a)[4] == a.destination
  {
  }

  /** For equal fields, the two export requests give helm the same arguments. */
  lemma SameAsChartExport(a: ExportArg)
    ensures Argv(a) == ChartExportArgs.Argv(ChartExportArgs.ChartExportArg(a.chart, a.version, a.destination))
  {
  }
}

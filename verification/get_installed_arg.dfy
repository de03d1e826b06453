/** `GetInstalledArg`: the request behind `helm list` with its optional flags. */
module GetInstalledArgs {
  import opened Wrappers
  import opened Commands
  import opened Text

  /** Rust's `u32`. */
  type u32 = x: int | 0 <= x < 0x1_0000_0000

  datatype GetInstalledArg = GetInstalledArg(
    all: Option<bool>,
    allNamespaces: Option<bool>,
    date: Option<bool>,
    pending: Option<bool>,
    reverse: Option<bool>,
    short: Option<bool>,
    superseded: Option<bool>,
    uninstalled: Option<bool>,
    uninstalling: Option<bool>,
    filter: Option<string>,
    selector: Option<string>,
    timeFormat: Option<string>,
    namespace: Option<string>,
    max: Option<u32>,
    offset: Option<u32>)

  /** The three arguments every listing starts with. */
  const Prefix: seq<string> := ["list", "--output", "json"]

  /** The nine switches, in declared order. */
  const SwitchFlags: seq<string> := ["--all", "--all-namespaces", "--date", "--pending", "--reverse",
                                     "--short", "--superseded", "--uninstalled", "--uninstalling"]

  /** `GetInstalledArg::default()`: every option unset; helm then gets only the prefix. */
  function Default(): (r: GetInstalledArg)
    ensures r.all == r.allNamespaces == r.date == r.pending == r.reverse == None
    ensures r.short == r.superseded == r.uninstalled == r.uninstalling == None
    ensures r.filter == r.selector == r.timeFormat == r.namespace == None
    ensures r.max == r.offset == None
    ensures Argv(r) == Prefix
  {
    GetInstalledArg(None, None, None, None, None, None, None, None, None, None, None, None, None, None, None)
  }

  /** A number option, rendered as its decimal text. */
  function NumberText(n: Option<u32>): Option<string> {
    if n.Some? then Some(DecimalString(n.value)) else None
  }

  /** The switches of `a` that are `Some(true)`, in declared order. */
  function Switches(a: GetInstalledArg): seq<string> {
    OptSwitch(a.all, "--all")
    + OptSwitch(a.allNamespaces, "--all-namespaces")
    + OptSwitch(a.date, "--date")
    + OptSwitch(a.pending, "--pending")
    + OptSwitch(a.reverse, "--reverse")
    + OptSwitch(a.short, "--short")
    + OptSwitch(a.superseded, "--superseded")
    + OptSwitch(a.uninstalled, "--uninstalled")
    + OptSwitch(a.uninstalling, "--uninstalling")
  }

  /** The string options as flag/value pairs, then `--max` and `--offset`, each only when present. */
  function ValuedOptions(a: GetInstalledArg): seq<string> {
    OptPair("--filter", a.filter)
    + OptPair("--selector", a.selector)
    + OptPair("--time-format", a.timeFormat)
    + OptPair("--namespace", a.namespace)
    + OptPair("--max", NumberText(a.max))
    + OptPair("--offset", NumberText(a.offset))
  }

  /** The arguments `Into<Command>` gives helm. */
  function Argv(a: GetInstalledArg): seq<string> {
    Prefix + Switches(a) + ValuedOptions(a)
  }

  /** The switch part, appended one option at a time. */
  method AppendSwitches(a: GetInstalledArg, cmd: Command)
    modifies cmd
    ensures cmd.args == old(cmd.args) + Switches(a)
  {
    ghost var start := cmd.args;
    cmd.SwitchIfTrue(a.all, "--all");
    ghost var done := OptSwitch(a.all, "--all");
    cmd.SwitchIfTrue(a.allNamespaces, "--all-namespaces");
    AppendAssoc(start, done, OptSwitch(a.allNamespaces, "--all-namespaces"));
    done := done + OptSwitch(a.allNamespaces, "--all-namespaces");
    assert cmd.args == start + done;
    cmd.SwitchIfTrue(a.date, "--date");
    AppendAssoc(start, done, OptSwitch(a.date, "--date"));
    done := done + OptSwitch(a.date, "--date");
    assert cmd.args == start + done;
    cmd.SwitchIfTrue(a.pending, "--pending");
    AppendAssoc(start, done, OptSwitch(a.pending, "--pending"));
    done := done + OptSwitch(a.pending, "--pending");
    assert cmd.args == start + done;
    cmd.SwitchIfTrue(a.reverse, "--reverse");
    AppendAssoc(start, done, OptSwitch(a.reverse, "--reverse"));
    done := done + OptSwitch(a.reverse, "--reverse");
    assert cmd.args == start + done;
    cmd.SwitchIfTrue(a.short, "--short");
    AppendAssoc(start, done, OptSwitch(a.short, "--short"));
    done := done + OptSwitch(a.short, "--short");
    assert cmd.args == start + done;
    cmd.SwitchIfTrue(a.superseded, "--superseded");
    AppendAssoc(start, done, OptSwitch(a.superseded, "--superseded"));
    done := done + OptSwitch(a.superseded, "--superseded");
    assert cmd.args == start + done;
    cmd.SwitchIfTrue(a.uninstalled, "--uninstalled");
    AppendAssoc(start, done, OptSwitch(a.uninstalled, "--uninstalled"));
    done := done + OptSwitch(a.uninstalled, "--uninstalled");
    assert cmd.args == start + done;
    cmd.SwitchIfTrue(a.uninstalling, "--uninstalling");
    AppendAssoc(start, done, OptSwitch(a.uninstalling, "--uninstalling"));
    done := done + OptSwitch(a.uninstalling, "--uninstalling");
    assert cmd.args == start + done;
  }

  /** The pair part, appended one option at a time. */
  method AppendPairs(a: GetInstalledArg, cmd: Command)
    modifies cmd
    ensures cmd.args == old(cmd.args) + ValuedOptions(a)
  {
    ghost var start := cmd.args;
    cmd.PairIfSome("--filter", a.filter);
    ghost var done := OptPair("--filter", a.filter);
    cmd.PairIfSome("--selector", a.selector);
    AppendAssoc(start, done, OptPair("--selector", a.selector));
    done := done + OptPair("--selector", a.selector);
    assert cmd.args == start + done;
    cmd.PairIfSome("--time-format", a.timeFormat);
    AppendAssoc(start, done, OptPair("--time-format", a.timeFormat));
    done := done + OptPair("--time-format", a.timeFormat);
    assert cmd.args == start + done;
    cmd.PairIfSome("--namespace", a.namespace);
    AppendAssoc(start, done, OptPair("--namespace", a.namespace));
    done := done + OptPair("--namespace", a.namespace);
    assert cmd.args == start + done;
    if a.max.Some? {
      cmd.Args(["--max", DecimalString(a.max.value)]);
    }
    AppendAssoc(start, done, OptPair("--max", NumberText(a.max)));
    done := done + OptPair("--max", NumberText(a.max));
    assert cmd.args == start + done;
    if a.offset.Some? {
      cmd.Args(["--offset", DecimalString(a.offset.value)]);
    }
    AppendAssoc(start, done, OptPair("--offset", NumberText(a.offset)));
    done := done + OptPair("--offset", NumberText(a.offset));
    assert cmd.args == start + done;
  }

  /** `Into<Command>`: the prefix, then fifteen conditional appends in declared order. */
  method IntoCommand(a: GetInstalledArg) returns (cmd: Command)
    ensures fresh(cmd) && cmd.program == Helm && cmd.args == Argv(a)
  {
    cmd := new Command(Helm);
    cmd.Args(["list"]);
    cmd.Args(["--output", "json"]);
    assert cmd.args == Prefix;
    AppendSwitches(a, cmd);
    ghost var switched := cmd.args;
    assert switched == Prefix + Switches(a);
    AppendPairs(a, cmd);
    assert cmd.args == switched + ValuedOptions(a);
  }

  /** How many of the nine switches hold `Some(true)`. */
  function SwitchCount(a: GetInstalledArg): nat {
    SwitchWidth(a.all) + SwitchWidth(a.allNamespaces) + SwitchWidth(a.date)
    + SwitchWidth(a.pending) + SwitchWidth(a.reverse) + SwitchWidth(a.short)
    + SwitchWidth(a.superseded) + SwitchWidth(a.uninstalled) + SwitchWidth(a.uninstalling)
  }

  /** How many of the six valued options are present. */
  function PairCount(a: GetInstalledArg): nat {
    Present(a.filter) + Present(a.selector) + Present(a.timeFormat) + Present(a.namespace)
    + Present(a.max) + Present(a.offset)
  }

  /** One argument per `Some(true)` switch. */
  lemma SwitchesLength(a: GetInstalledArg)
    ensures |Switches(a)| == SwitchCount(a)
  {
    OptSwitchLength(a.all, "--all");
    OptSwitchLength(a.allNamespaces, "--all-namespaces");
    OptSwitchLength(a.date, "--date");
    OptSwitchLength(a.pending, "--pending");
    OptSwitchLength(a.reverse, "--reverse");
    OptSwitchLength(a.short, "--short");
    OptSwitchLength(a.superseded, "--superseded");
    OptSwitchLength(a.uninstalled, "--uninstalled");
    OptSwitchLength(a.uninstalling, "--uninstalling");
  }

  /** Two arguments per present valued option. */
  lemma ValuedOptionsLength(a: GetInstalledArg)
    ensures |ValuedOptions(a)| == 2 * PairCount(a)
  {
    OptPairLength("--filter", a.filter);
    OptPairLength("--selector", a.selector);
    OptPairLength("--time-format", a.timeFormat);
    OptPairLength("--namespace", a.namespace);
    OptPairLength("--max", NumberText(a.max));
    OptPairLength("--offset", NumberText(a.offset));
  }

  /**
   * The rendering starts with the three prefix tokens; its length counts one
   * per `Some(true)` switch and two per present valued option.
   */
  lemma Layout(a: GetInstalledArg)
    ensures Argv(a)[..3] == Prefix
    ensures |Argv(a)| == 3 + SwitchCount(a) + 2 * PairCount(a)
  {
    SwitchesLength(a);
    ValuedOptionsLength(a);
  }

  /**
   * Right after the prefix come the set switches, every one of them one of
   * the nine switch tokens; all the flag/value pairs follow them.
   */
  lemma SwitchesBeforePairs(a: GetInstalledArg)
    ensures forall x :: x in Argv(a)[3..3 + |Switches(a)|] ==> x in SwitchFlags
    ensures Argv(a)[3 + |Switches(a)|..] == ValuedOptions(a)
  {
    assert Argv(a)[3..3 + |Switches(a)|] == Switches(a);
  }

  /** `--max` and `--offset` come last, each followed by its decimal text. */
  lemma NumbersLast(a: GetInstalledArg)
    ensures a.offset.Some? ==> Argv(a)[|Argv(a)| - 2..] == ["--offset", DecimalString(a.offset.value)]
    ensures a.max.Some? && a.offset.None? ==> Argv(a)[|Argv(a)| - 2..] == ["--max", DecimalString(a.max.value)]
    ensures a.max.Some? && a.offset.Some? ==>
              Argv(a)[|Argv(a)| - 4..] == ["--max", DecimalString(a.max.value), "--offset", DecimalString(a.offset.value)]
  {
  }

  /** The number given to `--max` (or `--offset`) reads back as the requested number. */
  lemma NumberReadsBack(a: GetInstalledArg)
    requires a.max.Some?
    ensures var t := Argv(a)[|Argv(a)| - (if a.offset.Some? then 3 else 1)];
            (forall k :: 0 <= k < |t| ==> IsDigit(t[k])) && DecimalValue(t) == a.max.value
  {
    NumbersLast(a);
    DecimalRoundTrip(a.max.value);
  }

  /** With every option on, helm receives all nine switches, then every pair, in declared order. */
  lemma FullRendering(filter: string, selector: string, format: string, ns: string, max: u32, offset: u32)
    ensures var full := GetInstalledArg(Some(true), Some(true), Some(true), Some(true), Some(true),
                                        Some(true), Some(true), Some(true), Some(true),
                                        Some(filter), Some(selector), Some(format), Some(ns),
                                        Some(max), Some(offset));
            Argv(full) == Prefix + SwitchFlags
                          + ["--filter", filter, "--selector", selector, "--time-format", format,
                             "--namespace", ns, "--max", DecimalString(max), "--offset", DecimalString(offset)]
  {
  }
}

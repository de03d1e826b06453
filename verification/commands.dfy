/**
 * `std::process::Command` as the builders use it, and the argument shapes
 * the builders share: bare switches, flag/value pairs, repeated pairs and the
 * `chart:version` reference token.
 */
module Commands {
  import opened Wrappers

  /** The program every builder runs. */
  const Helm := "helm"

  /** A command line under construction: the program and the arguments appended so far. */
  class Command {
    const program: string
    var args: seq<string>

    /** `Command::new(program)`: no arguments yet. */
    constructor (program: string)
      ensures this.program == program && args == []
    {
      this.program := program;
      args := [];
    }

    /** `Command::arg`: append one argument. */
    method Arg(arg: string)
      modifies this
      ensures args == old(args) + [arg]
    {
      args := args + [arg];
    }

    /** `Command::args`: append several arguments, in order. */
    method Args(more: seq<string>)
      modifies this
      ensures args == old(args) + more
    {
      args := args + more;
    }

    /** The builders' `if let Some(b) = &opt { if *b == true { command.args(&[flag]) } }`. */
    method SwitchIfTrue(on: Option<bool>, flag: string)
      modifies this
      ensures args == old(args) + OptSwitch(on, flag)
    {
      if on.Some? && on.value {
        Args([flag]);
      }
    }

    /** The builders' `if let Some(v) = &opt { command.args(&[flag, v]) }`. */
    method PairIfSome(flag: string, value: Option<string>)
      modifies this
      ensures args == old(args) + OptPair(flag, value)
    {
      if value.Some? {
        Args([flag, value.value]);
      }
    }
  }

  /** Regrouping appended pieces, used when arguments are appended one piece at a time. */
  lemma AppendAssoc<T>(x: seq<T>, y: seq<T>, z: seq<T>)
    ensures (x + y) + z == x + (y + z)
  {
  }

  /** A bare switch, present only when `on` holds. */
  function Switch(on: bool, flag: string): seq<string> {
    if on then [flag] else []
  }

  /** A switch held as `Option<bool>`: rendered only for `Some(true)`. */
  function OptSwitch(on: Option<bool>, flag: string): seq<string> {
    Switch(on == Some(true), flag)
  }

  /** A flag followed by its value, present only when the value is. */
  function OptPair(flag: string, value: Option<string>): seq<string> {
    if value.Some? then [flag, value.value] else []
  }

  /** How many arguments a switch adds: one for `Some(true)`, none otherwise. */
  function SwitchWidth(on: Option<bool>): nat {
    if on == Some(true) then 1 else 0
  }

  /** How many options of one kind are present: one or none. */
  function Present<T>(value: Option<T>): nat {
    if value.Some? then 1 else 0
  }

  /** A switch adds one argument exactly when it is `Some(true)`. */
  lemma OptSwitchLength(on: Option<bool>, flag: string)
    ensures |OptSwitch(on, flag)| == SwitchWidth(on)
  {
  }

  /** A flag/value pair adds two arguments exactly when the value is present. */
  lemma OptPairLength(flag: string, value: Option<string>)
    ensures |OptPair(flag, value)| == 2 * Present(value)
  {
  }

  /** The elements of an `Option`, as Rust iterates over it: none or one. */
  function OptionItems<T>(o: Option<T>): (r: seq<T>)
    ensures o.Some? ==> r == [o.value]
    ensures o.None? <==> r == []
  {
    if o.Some? then [o.value] else []
  }

  /**
   * The flag repeated once per value, each occurrence followed by its value:
   * `flag, vals[0], flag, vals[1], ...`.
   */
  function Pairs(flag: string, vals: seq<string>): (r: seq<string>)
    ensures |r| == 2 * |vals|
  {
    if vals == [] then [] else Pairs(flag, vals[..|vals| - 1]) + [flag, vals[|vals| - 1]]
  }

  /** Pair `i` sits at positions `2 * i` and `2 * i + 1`: the flag, then the `i`-th value. */
  lemma {:induction false} PairsAt(flag: string, vals: seq<string>, i: int)
    requires 0 <= i < |vals|
    ensures Pairs(flag, vals)[2 * i] == flag && Pairs(flag, vals)[2 * i + 1] == vals[i]
  {
    var init := vals[..|vals| - 1];
    if i < |init| {
      PairsAt(flag, init, i);
      assert vals[i] == init[i];
    }
  }

  /** Pairs placed between other arguments keep their positions, shifted by what comes before them. */
  lemma PairsWithin(pre: seq<string>, flag: string, vals: seq<string>, post: seq<string>, i: int)
    requires 0 <= i < |vals|
    ensures |pre| + 2 * i + 1 < |pre + Pairs(flag, vals) + post|
    ensures (pre + Pairs(flag, vals) + post)[|pre| + 2 * i] == flag
    ensures (pre + Pairs(flag, vals) + post)[|pre| + 2 * i + 1] == vals[i]
  {
    PairsAt(flag, vals, i);
  }

  /** Pairs at the end of the arguments keep their positions, shifted by what comes before them. */
  lemma PairsAtEnd(pre: seq<string>, flag: string, vals: seq<string>, i: int)
    requires 0 <= i < |vals|
    ensures |pre| + 2 * i + 1 < |pre + Pairs(flag, vals)|
    ensures (pre + Pairs(flag, vals))[|pre| + 2 * i] == flag
    ensures (pre + Pairs(flag, vals))[|pre| + 2 * i + 1] == vals[i]
  {
    PairsAt(flag, vals, i);
  }

  /** `format!("{}:{}", chart, version)`: the reference token of a chart at a version. */
  function ChartRef(chart: string, version: string): (r: string)
    ensures |r| == |chart| + 1 + |version|
    ensures r[..|chart| + 1] == chart + ":"
    ensures r[|chart|..] == ":" + version
  {
    chart + ":" + version
  }

  /** Splits a reference token at its first `:`. */
  function SplitRef(r: string): (string, string) {
    if r == [] then ([], [])
    else if r[0] == ':' then ([], r[1..])
    else var (c, v) := SplitRef(r[1..]); ([r[0]] + c, v)
  }

  /** A chart name without `:` can be read back from its reference token together with the version. */
  lemma {:induction false} SplitChartRef(chart: string, version: string)
    requires ':' !in chart
    ensures SplitRef(ChartRef(chart, version)) == (chart, version)
  {
    if chart != [] {
      assert ChartRef(chart, version)[1..] == ChartRef(chart[1..], version);
      SplitChartRef(chart[1..], version);
      assert ChartRef(chart, version)[0] == chart[0] != ':';
      assert [chart[0]] + chart[1..] == chart;
    }
  }
}

/**
 * The boundary to the outside world. Running `helm` and decoding its output
 * are not modelled; they are given to the client as functions, so every
 * property below holds whatever helm, the UTF-8 check and the JSON decoder do.
 */
module Process {
  import opened Wrappers
  import opened Commands
  import opened Errors
  import opened Charts
  import opened InstalledCharts

  type byte = x: int | 0 <= x < 256

  /** What a finished helm run left on its two output streams. */
  datatype Output = Output(stdout: seq<byte>, stderr: seq<byte>)

  /** One run of a program with its arguments. */
  datatype Invocation = Invocation(program: string, args: seq<string>)

  /** The foreign decoders: `String::from_utf8` and `serde_json::from_slice` at the two record types. */
  datatype Decoders = Decoders(
    utf8: seq<byte> -> Option<string>,
    charts: seq<byte> -> Result<seq<Chart>, string>,
    installed: seq<byte> -> Result<seq<InstalledChart>, string>)

  /**
   * Runs commands. `checked` is what `CommandExt::result()` yields for an
   * invocation (the output of a successful run, or the error a failed one
   * maps to); `captured` is what `Command::output()` yields (the output, or
   * the text of the I/O error when the program cannot be started). `log`
   * records every invocation, in order.
   */
  class Runner {
    const checked: Invocation -> Result<Output, HelmError>
    const captured: Invocation -> Result<Output, string>
    var log: seq<Invocation>

    constructor (checked: Invocation -> Result<Output, HelmError>, captured: Invocation -> Result<Output, string>)
      ensures this.checked == checked && this.captured == captured && log == []
    {
      this.checked := checked;
      this.captured := captured;
      log := [];
    }

    /** `command.result()`: run the command and check its exit status. */
    method Result(cmd: Command) returns (r: Result<Output, HelmError>)
      modifies this
      ensures r == checked(Invocation(cmd.program, cmd.args))
      ensures log == old(log) + [Invocation(cmd.program, cmd.args)]
    {
      r := checked(Invocation(cmd.program, cmd.args));
      log := log + [Invocation(cmd.program, cmd.args)];
    }

    /** `command.output()`: run the command and capture its output, whatever its exit status. */
    method Output(cmd: Command) returns (r: Result<Output, string>)
      modifies this
      ensures r == captured(Invocation(cmd.program, cmd.args))
      ensures log == old(log) + [Invocation(cmd.program, cmd.args)]
    {
      r := captured(Invocation(cmd.program, cmd.args));
      log := log + [Invocation(cmd.program, cmd.args)];
    }
  }
}

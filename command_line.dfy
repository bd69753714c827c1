/**
 * `SubCommandParser`: split the command line into the program's name, the
 * sub-command and the arguments that follow it, then check those arguments
 * against the sub-command's options. What boost::program_options makes of
 * the arguments against those options is an input, `Options`.
 */
module CommandLine {
  import opened Wrappers
  import opened Terminal

  /**
   * What the option parser makes of the arguments: the help switch, the
   * positional (and unrecognised) arguments in order, and the values of the
   * options `--data`, `--preview`, `--sample_rate` and `--cid` when given.
   */
  datatype Options = Options(help: bool, positionals: seq<string>, dataDir: Option<string>,
                             preview: bool, sampleRate: Option<nat>, cameraId: Option<int>)

  /** One more than the largest `size_t`. */
  const SizeRange: int := 0x1_0000_0000_0000_0000

  /** An `int` converted to `size_t` for a comparison with a container's size: it wraps. */
  function AsSize(n: int): (m: nat)
    ensures m < SizeRange
    ensures 0 <= n < SizeRange ==> m == n
    ensures n < 0 && -SizeRange <= n ==> m == n + SizeRange
  {
    n % SizeRange
  }

  class SubCommandParser {
    var cmd: string
    const appName: string
    var args: seq<string>
    var required: seq<string>
    const console: Console

    /** Keep all of `argv`; when there is a sub-command, take it and erase it and the program's name. */
    constructor (argv: seq<string>, console: Console)
      requires |argv| >= 1
      ensures appName == argv[0] && this.console == console && required == []
      ensures |argv| < 2 ==> cmd == "" && args == argv
      ensures |argv| >= 2 ==> cmd == argv[1] && args == argv[2..]
      ensures |argv| >= 2 ==> [appName, cmd] + args == argv && |args| == |argv| - 2
    {
      appName := argv[0];
      this.console := console;
      cmd := "";
      args := argv;
      required := [];
      new;
      if |args| < 2 {
        return;
      }
      cmd := args[1];
      args := args[1..];
      args := args[1..];
      assert [argv[0], argv[1]] + argv[2..] == argv;
    }

    /**
     * `process`: given what the arguments read as against `opt`, keep the positionals,
     * and refuse (printing `opt`) when help was asked for or fewer than
     * `requiredCount` positionals were given. The count is compared as a
     * `size_t`, so a negative one refuses any argument list.
     */
    method Process(opt: string, requiredCount: int, parsed: Options) returns (ok: bool)
      modifies this`required, console
      ensures required == parsed.positionals
      ensures ok <==> !parsed.help && |parsed.positionals| >= AsSize(requiredCount)
      ensures 0 <= requiredCount < SizeRange ==> (ok <==> !parsed.help && |parsed.positionals| >= requiredCount)
      ensures requiredCount < 0 && |parsed.positionals| < requiredCount + SizeRange ==> !ok
      ensures !ok ==> console.written == old(console.written) + [opt + "\n"]
      ensures ok ==> console.written == old(console.written)
    {
      required := parsed.positionals;
      if parsed.help || |required| < AsSize(requiredCount) {
        console.Write(opt + "\n");
        return false;
      }
      return true;
    }
  }
}

/**
 * valibox_builder/conditionals.py: the run-time conditions that decide
 * whether a step is skipped.  `Perform` returning `true` means "skip the
 * step this conditional is attached to".
 */
module Conditionals {

  import opened Wrappers
  import opened Text
  import opened Util

  datatype Conditional =
    | CmdOutput(cmd: string, expected: string, skipIfFalse: bool, directory: Option<string>)
    | DirExists(path: string)

  /** The outcome of evaluating a conditional and the commands it started. */
  datatype Evaluation = Evaluation(skip: Result<bool, Exception>, ran: seq<Run>)

  /**
   * The polarity rule of `CmdOutputConditional`: with `skipIfFalse` the step
   * is skipped when the output differs from the expected text, otherwise
   * when it equals it.
   */
  function Decide(output: string, expected: string, skipIfFalse: bool): (skip: bool)
    ensures skipIfFalse ==> (skip <==> output != expected)
    ensures !skipIfFalse ==> (skip <==> output == expected)
  {
    if skipIfFalse then output != expected else output == expected
  }

  /** For the same output the two polarities always disagree. */
  lemma PolarityFlips(output: string, expected: string)
    ensures Decide(output, expected, true) == !Decide(output, expected, false)
  {
  }

  /**
   * `perform()` as written.  Without a directory the command is looked up
   * as the bare name `cmd`, and with `skipIfFalse` unset the comparison uses
   * the bare name `expected`: neither name is defined, so both raise
   * `NameError`.  The captured output is always `"\n"` (see
   * `Util.BasicCmdOutput`).
   */
  function Perform(c: Conditional, cwd: string, os: Os): (e: Evaluation)
    ensures c.DirExists? ==> e.ran == [] && e.skip == Success(os.pathExists(cwd, c.path))
    ensures c.CmdOutput? && c.directory.None? ==>
              e.ran == [] && e.skip == Failure(NameError("cmd"))
    ensures c.CmdOutput? && c.directory.Some? ==>
              e.ran == [Run(c.directory.value, c.cmd)]
    ensures c.CmdOutput? && c.directory.Some? && c.skipIfFalse ==>
              e.skip == Success(c.expected != "\n")
    ensures c.CmdOutput? && c.directory.Some? && !c.skipIfFalse ==>
              e.skip == Failure(NameError("expected"))
  {
    match c
    case DirExists(path) =>
      Evaluation(Success(os.pathExists(cwd, path)), [])
    case CmdOutput(cmd, expected, skipIfFalse, directory) =>
      if directory.None? then
        Evaluation(Failure(NameError("cmd")), [])
      else
        // inside `gotodir(directory)`: the command runs there
        var output := BasicCmdOutput(os.stdout(directory.value, cmd));
        var skip := if skipIfFalse then Success(Decide(output, expected, true))
                    else Failure(NameError("expected"));
        Evaluation(skip, [Run(directory.value, cmd)])
  }

  /** The text `__str__` shows before the command's own description. */
  function Describe(c: Conditional): (r: string)
    ensures c.DirExists? ==> StartsWith(r, "IF directory " + c.path)
    ensures c.CmdOutput? ==> StartsWith(r, "IF '" + c.cmd + "' is ")
    ensures c.CmdOutput? ==>
              (StartsWith(r[|"IF '" + c.cmd + "' is "|..], "not ") <==> c.skipIfFalse)
  {
    match c
    case DirExists(path) =>
      "IF directory " + path + " does not exist"
    case CmdOutput(cmd, expected, skipIfFalse, _) =>
      var head := "IF '" + cmd + "' is ";
      var r := head + (if skipIfFalse then "not " else "") + "'" + expected + "'";
      assert r[|head|..] == (if skipIfFalse then "not " else "") + "'" + expected + "'";
      assert !skipIfFalse ==> r[|head|..][0] == '\'';
      r
  }
}

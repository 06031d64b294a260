/**
 * valibox_builder/util.py: the working-directory scope guard `gotodir`, the
 * exit-code rule of `basic_cmd` and the (constant) result of
 * `basic_cmd_output`.  Processes and the file system are not run: what they
 * would answer is supplied as an `Os` value.
 */
module Util {

  import opened Wrappers
  import opened Text

  /**
   * What the operating system answers, as functions of the current
   * directory: whether a path exists, the exit code of a command, and the
   * standard output a command prints.
   */
  datatype Os = Os(
    pathExists: (string, string) -> bool,   // (cwd, path)
    exitCode: (string, string) -> int,      // (cwd, command)
    stdout: (string, string) -> string)     // (cwd, command)

  /** The Python exceptions the modelled code can raise. */
  datatype Exception =
    | NameError(name: string)        // an unqualified name that is not defined
    | FileNotFound(file: string)     // `open(file, "r")` on a missing file

  /** A command the builder started, and the directory it ran in. */
  datatype Run = Run(cwd: string, cmd: string)

  /** The process-wide current directory that `os.chdir` changes. */
  class Process {
    var cwd: string

    constructor (cwd: string)
      ensures this.cwd == cwd
    {
      this.cwd := cwd;
    }
  }

  /** `gotodir`: a context manager that enters a directory and goes back on exit. */
  class GotoDir {
    const goToDir: string
    var origDir: Option<string>

    constructor (directory: string)
      ensures goToDir == directory && origDir == None
    {
      goToDir := directory;
      origDir := None;
    }

    /** `__enter__`: remember the current directory, then change to `goToDir`. */
    method Enter(p: Process)
      modifies this, p
      ensures origDir == Some(old(p.cwd))
      ensures p.cwd == goToDir
    {
      origDir := Some(p.cwd);
      p.cwd := goToDir;
    }

    /** `__exit__`: go back to the remembered directory, if there is one. */
    method Exit(p: Process)
      modifies p
      ensures origDir.Some? ==> p.cwd == origDir.value
      ensures origDir.None? ==> p.cwd == old(p.cwd)
    {
      if origDir.Some? {
        p.cwd := origDir.value;
      }
    }
  }

  /** A `with gotodir(dir):` block whose body changes nothing else leaves the directory as it was. */
  method WithDirectory(p: Process, dir: string) returns (inside: string)
    modifies p
    ensures inside == dir
    ensures p.cwd == old(p.cwd)
  {
    var g := new GotoDir(dir);
    g.Enter(p);
    inside := p.cwd;
    g.Exit(p);
  }

  /** Two nested scopes: each exit restores the directory its own enter saw. */
  method NestedDirectories(p: Process, outer: string, inner: string) returns (seen: seq<string>)
    modifies p
    ensures seen == [outer, inner, outer]
    ensures p.cwd == old(p.cwd)
  {
    var g1 := new GotoDir(outer);
    g1.Enter(p);
    seen := [p.cwd];
    var g2 := new GotoDir(inner);
    g2.Enter(p);
    seen := seen + [p.cwd];
    g2.Exit(p);
    seen := seen + [p.cwd];
    g1.Exit(p);
  }

  /**
   * `basic_cmd`: the command's exit code decides the result, unless the
   * step may fail, in which case any exit code counts as success.
   */
  function BasicCmd(exitCode: int, mayFail: bool): (ok: bool)
    ensures mayFail ==> ok
    ensures !mayFail ==> (ok <==> exitCode == 0)
  {
    if mayFail then true else exitCode == 0
  }

  /**
   * `basic_cmd_output`: `stdout.join("\n")` iterates the one-character
   * string `"\n"` and puts `stdout` between its characters, of which there
   * is only one, so the captured output never reaches the caller.
   */
  function BasicCmdOutput(stdout: string): (r: string)
    ensures r == "\n"
  {
    assert Chars("\n") == ["\n"];
    Join(stdout, Chars("\n"))
  }
}

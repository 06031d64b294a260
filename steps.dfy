/**
 * valibox_builder/steps.py: the three kinds of step.  A command step
 * decides, from its fields and from what the operating system answers,
 * whether to run its command; the two rewrite steps copy a file line by line
 * into another one, changing some lines on the way.
 */
module Steps {

  import opened Wrappers
  import opened Text
  import opened Util
  import opened Lines
  import Conditionals

  datatype Step =
    | CmdStep(cmd: string, directory: Option<string>, mayFail: bool, skipIf: bool,
              conditional: Option<Conditionals.Conditional>)
    | UpdateFeedsConf(workDir: string, lineToAdd: string)
    | UpdatePkgMakefile(workDir: string, makefile: string, tarfile: string)

  /** `CmdStep(cmd, directory)` with the constructor's other arguments at their defaults. */
  function Cmd(cmd: string, directory: Option<string>): Step {
    CmdStep(cmd, directory, false, false, None)
  }

  /** The feed line the package's `UpdateFeedsConf` registers, given the absolute feed path. */
  function FeedsConfLine(absFeedDir: string): (line: string)
    ensures StartsWith(line, "src-link sidn ")
    ensures |line| == 15 + |absFeedDir| && line[14..|line| - 1] == absFeedDir
    ensures EndsInNewline(line)
    ensures '\n' !in absFeedDir ==> IsLine(line)
  {
    var line := "src-link sidn " + absFeedDir + "\n";
    assert line[14..|line| - 1] == absFeedDir;
    assert forall i :: 14 <= i < |line| - 1 ==> line[i] == absFeedDir[i - 14];
    line
  }

  // ---------------------------------------------------------------------
  // CmdStep

  /** Whether a step ran successfully, and the commands it started. */
  datatype Outcome = Outcome(ok: Result<bool, Exception>, ran: seq<Run>)

  /** Where a command step's command runs: its own directory, or the current one. */
  function CommandDir(s: Step, cwd: string): string
    requires s.CmdStep?
  {
    if s.directory.Some? then s.directory.value else cwd
  }

  /**
   * `CmdStep.perform`: the static skip flag first, then the conditional,
   * then the command.  A skipped step succeeds without running its command.
   */
  function PerformCmdStep(s: Step, cwd: string, os: Os): (o: Outcome)
    requires s.CmdStep?
    // the skip flag wins over everything, and nothing runs
    ensures s.skipIf ==> o == Outcome(Success(true), [])
    // a conditional that says "skip": success, and only the conditional's own command ran
    ensures !s.skipIf && s.conditional.Some? ==>
              var e := Conditionals.Perform(s.conditional.value, cwd, os);
              (e.skip == Success(true) ==> o == Outcome(Success(true), e.ran)) &&
              (e.skip.Failure? ==> o == Outcome(Failure(e.skip.error), e.ran))
    // otherwise the command runs, and its exit code decides unless the step may fail
    ensures !s.skipIf ==>
              var e := if s.conditional.Some? then Conditionals.Perform(s.conditional.value, cwd, os)
                       else Conditionals.Evaluation(Success(false), []);
              e.skip == Success(false) ==>
                o.ran == e.ran + [Run(CommandDir(s, cwd), s.cmd)] &&
                o.ok == Success(s.mayFail || os.exitCode(CommandDir(s, cwd), s.cmd) == 0)
    // a step that may fail never reports failure
    ensures s.mayFail ==> o.ok != Success(false)
  {
    if s.skipIf then
      Outcome(Success(true), [])
    else
      var e := if s.conditional.Some? then Conditionals.Perform(s.conditional.value, cwd, os)
               else Conditionals.Evaluation(Success(false), []);
      match e.skip
      case Failure(err) => Outcome(Failure(err), e.ran)
      case Success(skip) =>
        if skip then Outcome(Success(true), e.ran)
        else
          // inside `gotodir(directory)` when the step has one
          var dir := CommandDir(s, cwd);
          Outcome(Success(BasicCmd(os.exitCode(dir, s.cmd), s.mayFail)), e.ran + [Run(dir, s.cmd)])
  }

  /** The command part of `CmdStep.__str__`. */
  function CmdText(s: Step): (r: string)
    requires s.CmdStep?
    ensures s.directory.Some? ==> StartsWith(r, "in " + s.directory.value + ": ")
    ensures s.directory.None? ==> StartsWith(r, "in current dir: ")
    ensures |s.cmd| <= |r| && r[|r| - |s.cmd|..] == s.cmd
    // nothing lies between the directory part and the command
    ensures |r| == (if s.directory.Some? then |s.directory.value| + 5 else 16) + |s.cmd|
  {
    if s.directory.Some? then "in " + s.directory.value + ": " + s.cmd
    else "in current dir: " + s.cmd
  }

  /** `__str__` of each kind of step. */
  function Describe(s: Step): (r: string)
    ensures s.CmdStep? && s.conditional.None? ==> r == CmdText(s)
    ensures s.CmdStep? && s.conditional.Some? ==>
              var head := Conditionals.Describe(s.conditional.value) + "\n\t";
              StartsWith(r, head) && r[|head|..] == CmdText(s)
    ensures !s.CmdStep? ==> StartsWith(r, "in " + s.workDir + ": ")
  {
    match s
    case CmdStep(_, _, _, _, conditional) =>
      if conditional.Some? then
        var head := Conditionals.Describe(conditional.value) + "\n\t";
        assert (head + CmdText(s))[|head|..] == CmdText(s);
        head + CmdText(s)
      else CmdText(s)
    case UpdateFeedsConf(workDir, lineToAdd) =>
      var head := "in " + workDir + ": ";
      var r := head + "add " + lineToAdd + " to feeds.conf";
      assert r[..|head|] == head;
      r
    case UpdatePkgMakefile(workDir, makefile, tarfile) =>
      var head := "in " + workDir + ": ";
      var r := head + "Update the LEDE package makefile " + makefile + " to use "
               + tarfile + " as the source";
      assert r[..|head|] == head;
      r
  }


  // ---------------------------------------------------------------------
  // The file rewrites

  /** File contents, by directory and file name. */
  type Files = map<(string, string), string>

  /** The files the steps read and write. */
  class FileSystem {
    var files: Files

    constructor (files: Files)
      ensures this.files == files
    {
      this.files := files;
    }
  }

  /**
   * What `UpdateFeedsConf` leaves in `feeds.conf`: every line `readlines`
   * gives of the template, then the added line.
   */
  function FeedsConf(template: string, lineToAdd: string): (conf: string)
    ensures |conf| == |template| + |lineToAdd|
    ensures conf[..|template|] == template && conf[|template|..] == lineToAdd
  {
    Concat(ReadLines(template)) + lineToAdd
  }

  /**
   * When the template is empty or ends in a newline, `feeds.conf` reads back
   * as the template's lines followed by the feed line, which now occurs once
   * more than in the template.
   */
  lemma FeedLineAppended(template: string, lineToAdd: string)
    requires |template| == 0 || EndsInNewline(template)
    requires IsLine(lineToAdd)
    ensures ReadLines(FeedsConf(template, lineToAdd)) == ReadLines(template) + [lineToAdd]
    ensures multiset(ReadLines(FeedsConf(template, lineToAdd)))[lineToAdd]
            == multiset(ReadLines(template))[lineToAdd] + 1
  {
    var before := ReadLines(template);
    assert FeedsConf(template, lineToAdd) == template + lineToAdd;
    ReadLinesAppend(template, lineToAdd);
    ReadLinesOneLine(lineToAdd);
    assert ReadLines(FeedsConf(template, lineToAdd)) == before + [lineToAdd];
    assert multiset(before + [lineToAdd]) == multiset(before) + multiset{lineToAdd};
  }

  /**
   * As written, when the template's last line has no newline the feed line
   * is glued onto it: `feeds.conf` has as many lines as the template, and
   * its last line is the template's last line followed by the feed line.
   */
  lemma FeedLineGluedAsWritten(template: string, lineToAdd: string)
    requires |template| > 0 && !EndsInNewline(template)
    requires IsLine(lineToAdd)
    ensures var before, after := ReadLines(template), ReadLines(FeedsConf(template, lineToAdd));
            |before| > 0 && |after| == |before| && after[..|before| - 1] == before[..|before| - 1]
            && after[|before| - 1] == before[|before| - 1] + lineToAdd
  {
    assert FeedsConf(template, lineToAdd) == template + lineToAdd;
    ReadLinesGluedText(template, lineToAdd);
    var before := ReadLines(template);
    var k := |before| - 1;
    assert (before[..k] + [before[k] + lineToAdd])[..k] == before[..k];
  }

  /**
   * The package's step registers the feed directory: after it, the last
   * line of `feeds.conf` is the feed line, and it names that directory.
   */
  lemma FeedDirRegistered(template: string, absFeedDir: string)
    requires |template| == 0 || EndsInNewline(template)
    requires '\n' !in absFeedDir
    ensures var lines := ReadLines(FeedsConf(template, FeedsConfLine(absFeedDir)));
            |lines| == |ReadLines(template)| + 1 && lines[|lines| - 1] == FeedsConfLine(absFeedDir)
            && StartsWith(lines[|lines| - 1], "src-link sidn ")
            && lines[|lines| - 1][14..|lines[|lines| - 1]| - 1] == absFeedDir
  {
    FeedLineAppended(template, FeedsConfLine(absFeedDir));
  }

  /** The result and files `UpdateFeedsConf.perform` leaves, from the files before it. */
  predicate FeedsConfDone(s: Step, before: Files, after: Files, r: Result<bool, Exception>)
    requires s.UpdateFeedsConf?
  {
    var conf, template := (s.workDir, "feeds.conf"), (s.workDir, "feeds.conf.default");
    if template in before then
      r == Success(true) && after == before[conf := FeedsConf(before[template], s.lineToAdd)]
    else
      r == Failure(FileNotFound("feeds.conf.default")) && after == before[conf := ""]
  }

  /**
   * `UpdateFeedsConf.perform`: inside the step's directory, `feeds.conf` is
   * opened for writing (which empties it) before `feeds.conf.default` is
   * opened for reading; the template's lines are copied and the feed line
   * appended.  A missing template raises after `feeds.conf` was emptied.
   */
  method PerformUpdateFeedsConf(s: Step, p: Process, fs: FileSystem) returns (r: Result<bool, Exception>)
    requires s.UpdateFeedsConf?
    modifies p, fs
    ensures p.cwd == old(p.cwd)
    ensures FeedsConfDone(s, old(fs.files), fs.files, r)
  {
    var g := new GotoDir(s.workDir);
    g.Enter(p);
    var conf, template := (p.cwd, "feeds.conf"), (p.cwd, "feeds.conf.default");
    fs.files := fs.files[conf := ""];
    if template !in fs.files {
      g.Exit(p);
      return Failure(FileNotFound("feeds.conf.default"));
    }
    var lines := ReadLines(fs.files[template]);
    var i := 0;
    while i < |lines|
      modifies fs
      invariant 0 <= i <= |lines|
      invariant fs.files == old(fs.files)[conf := Concat(lines[..i])]
    {
      ConcatExtends(lines, i);
      fs.files := fs.files[conf := fs.files[conf] + lines[i]];
      i := i + 1;
    }
    assert lines[..i] == lines;
    fs.files := fs.files[conf := fs.files[conf] + s.lineToAdd];
    g.Exit(p);
    r := Success(true);
  }

  /** A second attempt of the feeds step gives the same result and leaves the files as the first one did. */
  method RetryUpdateFeedsConf(s: Step, p: Process, fs: FileSystem)
    returns (first: Result<bool, Exception>, second: Result<bool, Exception>)
    requires s.UpdateFeedsConf?
    modifies p, fs
    ensures p.cwd == old(p.cwd)
    ensures second == first
    ensures FeedsConfDone(s, old(fs.files), fs.files, first)
  {
    first := PerformUpdateFeedsConf(s, p, fs);
    second := PerformUpdateFeedsConf(s, p, fs);
  }

  const UrlPrefix := "PKG_SOURCE_URL"
  const HashPrefix := "PKG_HASH"

  function UrlLine(tarfile: string): (line: string) {
    "PKG_SOURCE_URL:=file://" + tarfile + "\n"
  }

  function HashLine(hash: string): (line: string) {
    "PKG_HASH:=" + hash + "\n"
  }

  /** The rewrite of one makefile line: the source URL line, the hash line, or unchanged. */
  function RewriteLine(line: string, tarfile: string, hash: string): (written: string) {
    if StartsWith(line, UrlPrefix) then UrlLine(tarfile)
    else if StartsWith(line, HashPrefix) then HashLine(hash)
    else line
  }

  /** What `UpdatePkgMakefile` writes to the `.tmp` file: one write per makefile line read. */
  function RewriteMakefile(lines: seq<string>, tarfile: string, hash: string): (out: seq<string>)
    ensures |out| == |lines|
    ensures forall i :: 0 <= i < |lines| && StartsWith(lines[i], UrlPrefix) ==>
              out[i] == UrlLine(tarfile)
    ensures forall i :: 0 <= i < |lines| && !StartsWith(lines[i], UrlPrefix)
                          && StartsWith(lines[i], HashPrefix) ==>
              out[i] == HashLine(hash)
    ensures forall i :: 0 <= i < |lines| && !StartsWith(lines[i], UrlPrefix)
                          && !StartsWith(lines[i], HashPrefix) ==>
              out[i] == lines[i]
  {
    seq(|lines|, i requires 0 <= i < |lines| => RewriteLine(lines[i], tarfile, hash))
  }

  lemma RewriteExtends(lines: seq<string>, i: nat, tarfile: string, hash: string)
    requires i < |lines|
    ensures RewriteMakefile(lines[..i + 1], tarfile, hash)
            == RewriteMakefile(lines[..i], tarfile, hash) + [RewriteLine(lines[i], tarfile, hash)]
  {
    assert lines[..i + 1] == lines[..i] + [lines[i]];
  }

  /** The text written so far grows by the rewrite of the next line. */
  lemma RewriteStep(lines: seq<string>, i: nat, tarfile: string, hash: string)
    requires i < |lines|
    ensures Concat(RewriteMakefile(lines[..i + 1], tarfile, hash))
            == Concat(RewriteMakefile(lines[..i], tarfile, hash)) + RewriteLine(lines[i], tarfile, hash)
  {
    RewriteExtends(lines, i, tarfile, hash);
    ConcatSnoc(RewriteMakefile(lines[..i], tarfile, hash), RewriteLine(lines[i], tarfile, hash));
  }

  lemma RewriteMakefileAppend(x: seq<string>, y: seq<string>, tarfile: string, hash: string)
    ensures RewriteMakefile(x + y, tarfile, hash) == RewriteMakefile(x, tarfile, hash) + RewriteMakefile(y, tarfile, hash)
  {
    assert forall i :: 0 <= i < |x| ==> (x + y)[i] == x[i];
    assert forall i :: |x| <= i < |x| + |y| ==> (x + y)[i] == y[i - |x|];
  }

  /** The written URL line and hash line are recognised as such again, and as nothing else. */
  lemma RewrittenLinesKeepTheirKind(tarfile: string, hash: string)
    ensures StartsWith(UrlLine(tarfile), UrlPrefix)
    ensures StartsWith(HashLine(hash), HashPrefix) && !StartsWith(HashLine(hash), UrlPrefix)
  {
    assert UrlLine(tarfile)[..|UrlPrefix|] == UrlPrefix;
    assert HashLine(hash)[..|HashPrefix|] == HashPrefix;
    if |UrlPrefix| <= |HashLine(hash)| {
      assert HashLine(hash)[4] != UrlPrefix[4];
      assert HashLine(hash)[..|UrlPrefix|][4] != UrlPrefix[4];
    }
  }

  /**
   * After the rewrite, a line is a source URL line exactly where the input
   * had one, and then it names the tar file; every other hash line names
   * the hash.
   */
  lemma RewriteOutcome(lines: seq<string>, tarfile: string, hash: string)
    ensures var out := RewriteMakefile(lines, tarfile, hash);
            forall i :: 0 <= i < |out| ==>
              (StartsWith(out[i], UrlPrefix) <==> StartsWith(lines[i], UrlPrefix)) &&
              (StartsWith(out[i], UrlPrefix) ==> out[i] == UrlLine(tarfile)) &&
              (StartsWith(out[i], HashPrefix) && !StartsWith(out[i], UrlPrefix) ==>
                 out[i] == HashLine(hash))
  {
    RewrittenLinesKeepTheirKind(tarfile, hash);
  }

  /** Rewriting the rewritten lines changes nothing. */
  lemma RewriteIdempotent(lines: seq<string>, tarfile: string, hash: string)
    ensures RewriteMakefile(RewriteMakefile(lines, tarfile, hash), tarfile, hash)
            == RewriteMakefile(lines, tarfile, hash)
  {
    var once := RewriteMakefile(lines, tarfile, hash);
    RewriteOutcome(lines, tarfile, hash);
    RewrittenLinesKeepTheirKind(tarfile, hash);
    assert forall i :: 0 <= i < |once| ==> RewriteLine(once[i], tarfile, hash) == once[i];
  }

  /** A line made of a prefix, a value and a newline is one line when neither holds a newline. */
  lemma WrittenLineIsLine(prefix: string, value: string)
    requires '\n' !in prefix && '\n' !in value
    ensures IsLine(prefix + value + "\n") && EndsInNewline(prefix + value + "\n")
  {
    var line := prefix + value + "\n";
    assert forall i :: 0 <= i < |prefix| ==> line[i] == prefix[i];
    assert forall i :: |prefix| <= i < |prefix| + |value| ==> line[i] == value[i - |prefix|];
  }

  /** With a tar file name and a hash free of newlines, every line written is read back as one line. */
  lemma WrittenLinesReadBack(lines: seq<string>, tarfile: string, hash: string)
    requires IsLines(lines)
    ensures '\n' !in tarfile && '\n' !in hash ==>
              ReadLines(Concat(RewriteMakefile(lines, tarfile, hash))) == RewriteMakefile(lines, tarfile, hash)
  {
    if '\n' !in tarfile && '\n' !in hash {
      var out := RewriteMakefile(lines, tarfile, hash);
      assert '\n' !in "PKG_SOURCE_URL:=file://" && '\n' !in "PKG_HASH:=";
      WrittenLineIsLine("PKG_SOURCE_URL:=file://", tarfile);
      WrittenLineIsLine("PKG_HASH:=", hash);
      assert IsLines(out) by {
        forall i | 0 <= i < |out|
          ensures IsLine(out[i]) && (i < |out| - 1 ==> EndsInNewline(out[i]))
        {
          assert out[i] == RewriteLine(lines[i], tarfile, hash);
        }
      }
      ReadLinesOfLines(out);
    }
  }

  /** The `.tmp` file's text: the makefile's lines as `readlines` gives them, each rewritten. */
  function RewrittenMakefile(text: string, tarfile: string, hash: string): (out: string)
    ensures '\n' !in tarfile && '\n' !in hash ==>
              ReadLines(out) == RewriteMakefile(ReadLines(text), tarfile, hash)
  {
    WrittenLinesReadBack(ReadLines(text), tarfile, hash);
    Concat(RewriteMakefile(ReadLines(text), tarfile, hash))
  }

  /**
   * With a hash and a tar file name free of newlines, rewriting a rewritten
   * makefile changes nothing, so a retried step would be harmless.
   */
  lemma RewrittenMakefileIdempotent(text: string, tarfile: string, hash: string)
    requires '\n' !in tarfile && '\n' !in hash
    ensures RewrittenMakefile(RewrittenMakefile(text, tarfile, hash), tarfile, hash)
            == RewrittenMakefile(text, tarfile, hash)
  {
    RewriteIdempotent(ReadLines(text), tarfile, hash);
  }

  /** The rewrite treats text that ends in a newline, and what follows it, separately. */
  lemma RewrittenMakefileAppend(a: string, b: string, tarfile: string, hash: string)
    requires |a| == 0 || EndsInNewline(a)
    ensures RewrittenMakefile(a + b, tarfile, hash)
            == RewrittenMakefile(a, tarfile, hash) + RewrittenMakefile(b, tarfile, hash)
  {
    ReadLinesAppend(a, b);
    RewriteMakefileAppend(ReadLines(a), ReadLines(b), tarfile, hash);
    ConcatAppend(RewriteMakefile(ReadLines(a), tarfile, hash), RewriteMakefile(ReadLines(b), tarfile, hash));
  }

  /**
   * Whatever `sha256sum` prints, the hash `UpdatePkgMakefile` writes is
   * `"\n"`, so every hash line it writes is `"PKG_HASH:=\n\n"`: two lines
   * once the file is read again.
   */
  lemma MakefileHashAsWritten(sha256Stdout: string)
    ensures BeforeFirstSpace(BasicCmdOutput(sha256Stdout)) == "\n"
    ensures HashLine(BeforeFirstSpace(BasicCmdOutput(sha256Stdout))) == "PKG_HASH:=\n\n"
    ensures ReadLines("PKG_HASH:=\n\n") == ["PKG_HASH:=\n", "\n"]
  {
    assert "PKG_HASH:=\n\n" == Concat(["PKG_HASH:=\n", "\n"]);
    ReadLinesOfLines(["PKG_HASH:=\n", "\n"]);
  }

  /**
   * As written, each attempt adds an empty line after a hash line: the
   * hash line followed by `m + 1` newlines becomes the hash line followed
   * by `m + 2`.  `RetryAddsBlankLine` extends this to a whole makefile.
   */
  lemma HashLineGrowsAsWritten(m: nat, tarfile: string)
    ensures RewrittenMakefile("PKG_HASH:=" + Newlines(m + 1), tarfile, "\n") == "PKG_HASH:=" + Newlines(m + 2)
  {
    var head := HashLine("");
    var grown := HashLine("\n");
    NewlinesCons(m);
    NewlinesCons(m + 1);
    assert "PKG_HASH:=" + Newlines(m + 1) == head + Newlines(m);
    assert "PKG_HASH:=" + Newlines(m + 2) == grown + Newlines(m);
    assert IsLine(head) && EndsInNewline(head) by {
      WrittenLineIsLine("PKG_HASH:=", "");
    }
    LineThenNewlines(head, m);
    RewriteMakefileAppend([head], BlankLines(m), tarfile, "\n");
    BlankLinesKept(m, tarfile, "\n");
    HashLineRewritten(tarfile);
    ConcatSnoc([], grown);
    ConcatAppend([grown], BlankLines(m));
    ConcatBlankLines(m);
  }

  /** The empty hash line is rewritten to the hash line holding `"\n"`. */
  lemma HashLineRewritten(tarfile: string)
    ensures RewriteMakefile([HashLine("")], tarfile, "\n") == [HashLine("\n")]
  {
    RewrittenLinesKeepTheirKind(tarfile, "");
  }

  /** Empty lines are neither URL nor hash lines, so the rewrite keeps them. */
  lemma BlankLinesKept(m: nat, tarfile: string, hash: string)
    ensures RewriteMakefile(BlankLines(m), tarfile, hash) == BlankLines(m)
  {
    assert !StartsWith("\n", UrlPrefix) && !StartsWith("\n", HashPrefix);
  }

  /** A makefile of one line is rewritten as that line alone. */
  lemma RewrittenOneLine(line: string, tarfile: string, hash: string)
    requires IsLine(line)
    ensures RewrittenMakefile(line, tarfile, hash) == RewriteLine(line, tarfile, hash)
  {
    ReadLinesOneLine(line);
    assert RewriteMakefile([line], tarfile, hash) == [RewriteLine(line, tarfile, hash)];
    ConcatSnoc([], RewriteLine(line, tarfile, hash));
    assert [] + [RewriteLine(line, tarfile, hash)] == [RewriteLine(line, tarfile, hash)];
  }

  /** The hash line holding `k` newlines is the hash prefix followed by `k + 1` newlines. */
  lemma HashLineOfNewlines(k: nat)
    ensures HashLine(Newlines(k)) == "PKG_HASH:=" + Newlines(k + 1)
  {
    assert Newlines(k) + "\n" == Newlines(k + 1);
  }

  /**
   * One line rewritten with the hash `Newlines(k)`, then again with
   * `"\n"`, is the line rewritten once with `Newlines(k + 1)`.
   */
  lemma RetryLineAddsBlankLine(line: string, tarfile: string, k: nat)
    requires IsLine(line) && '\n' !in tarfile
    ensures RewrittenMakefile(RewrittenMakefile(line, tarfile, Newlines(k)), tarfile, "\n")
            == RewriteLine(line, tarfile, Newlines(k + 1))
  {
    var once := RewriteLine(line, tarfile, Newlines(k));
    assert RewrittenMakefile(line, tarfile, Newlines(k)) == once by {
      RewrittenOneLine(line, tarfile, Newlines(k));
    }
    if StartsWith(line, UrlPrefix) {
      assert RewrittenMakefile(once, tarfile, "\n") == UrlLine(tarfile) by {
        assert '\n' !in "PKG_SOURCE_URL:=file://";
        WrittenLineIsLine("PKG_SOURCE_URL:=file://", tarfile);
        RewrittenOneLine(once, tarfile, "\n");
        RewrittenLinesKeepTheirKind(tarfile, "\n");
      }
    } else if StartsWith(line, HashPrefix) {
      assert RewrittenMakefile(once, tarfile, "\n") == HashLine(Newlines(k + 1)) by {
        HashLineOfNewlines(k);
        HashLineOfNewlines(k + 1);
        HashLineGrowsAsWritten(k, tarfile);
      }
    } else {
      assert RewrittenMakefile(once, tarfile, "\n") == line by {
        RewrittenOneLine(once, tarfile, "\n");
      }
    }
  }

  /** A rewritten line ends in a newline when the line did. */
  lemma RewriteKeepsNewline(line: string, tarfile: string, hash: string)
    requires EndsInNewline(line)
    ensures EndsInNewline(RewriteLine(line, tarfile, hash))
  {
  }

  /** Two passes over a first line that ends in a newline treat it apart from the rest. */
  lemma RetrySplits(head: string, rest: string, tarfile: string, hash: string)
    requires IsLine(head) && EndsInNewline(head)
    ensures RewrittenMakefile(RewrittenMakefile(head + rest, tarfile, hash), tarfile, "\n")
            == RewrittenMakefile(RewrittenMakefile(head, tarfile, hash), tarfile, "\n")
               + RewrittenMakefile(RewrittenMakefile(rest, tarfile, hash), tarfile, "\n")
  {
    RewrittenMakefileAppend(head, rest, tarfile, hash);
    RewrittenOneLine(head, tarfile, hash);
    RewriteKeepsNewline(head, tarfile, hash);
    RewrittenMakefileAppend(RewrittenMakefile(head, tarfile, hash), RewrittenMakefile(rest, tarfile, hash), tarfile, "\n");
  }

  /** `RetryAddsBlankLine` on the text of a sequence of lines, by induction on the lines. */
  lemma {:induction false} RetryLinesAddBlankLine(lines: seq<string>, tarfile: string, k: nat)
    requires IsLines(lines) && '\n' !in tarfile
    ensures RewrittenMakefile(RewrittenMakefile(Concat(lines), tarfile, Newlines(k)), tarfile, "\n")
            == Concat(RewriteMakefile(lines, tarfile, Newlines(k + 1)))
    decreases |lines|
  {
    var h1, h2 := Newlines(k), Newlines(k + 1);
    if |lines| == 0 {
      ReadLinesOfLines(lines);
      ReadLinesOfLines([]);
    } else {
      var head, tail := lines[0], lines[1..];
      assert lines == [head] + tail;
      RewriteMakefileAppend([head], tail, tarfile, h2);
      assert Concat(RewriteMakefile(lines, tarfile, h2))
             == RewriteLine(head, tarfile, h2) + Concat(RewriteMakefile(tail, tarfile, h2));
      RetryLineAddsBlankLine(head, tarfile, k);
      if |tail| == 0 {
        assert Concat(lines) == head;
      } else {
        assert IsLines(tail);
        RetryLinesAddBlankLine(tail, tarfile, k);
        RetrySplits(head, Concat(tail), tarfile, h1);
      }
    }
  }

  /**
   * As written, an attempt on a makefile rewritten with the hash
   * `Newlines(k)` (each hash line followed by `k` empty lines) leaves what
   * one rewrite with the hash `Newlines(k + 1)` would: every hash line
   * gains one more empty line and every other line is as after one rewrite.
   */
  lemma RetryAddsBlankLine(text: string, tarfile: string, k: nat)
    requires '\n' !in tarfile
    ensures RewrittenMakefile(RewrittenMakefile(text, tarfile, Newlines(k)), tarfile, "\n")
            == RewrittenMakefile(text, tarfile, Newlines(k + 1))
  {
    RetryLinesAddBlankLine(ReadLines(text), tarfile, k);
  }

  /** Two attempts leave each hash line followed by two empty lines. */
  lemma RetryTwice(text: string, tarfile: string)
    requires '\n' !in tarfile
    ensures RewrittenMakefile(RewrittenMakefile(text, tarfile, "\n"), tarfile, "\n")
            == RewrittenMakefile(text, tarfile, Newlines(2))
  {
    assert Newlines(1) == "\n";
    RetryAddsBlankLine(text, tarfile, 1);
  }

  /** The command `UpdatePkgMakefile` uses to copy the `.tmp` file over the makefile. */
  function CopyBackCmd(makefile: string): (cmd: string) {
    "cp " + makefile + ".tmp" + " " + makefile
  }

  /** The result, commands and files `UpdatePkgMakefile.perform` leaves, from the files before it. */
  predicate PkgMakefileDone(s: Step, os: Os, before: Files, after: Files, r: Result<bool, Exception>, ran: seq<Run>)
    requires s.UpdatePkgMakefile?
  {
    var dir := s.workDir;
    var makefile, tmp := (dir, s.makefile), (dir, s.makefile + ".tmp");
    var hashRun := Run(dir, "sha256sum " + s.tarfile);
    var cpExit := os.exitCode(dir, CopyBackCmd(s.makefile));
    if makefile in before then
      var out := RewrittenMakefile(before[makefile], s.tarfile, "\n");
      r == Success(cpExit == 0) &&
      ran == [hashRun, Run(dir, CopyBackCmd(s.makefile))] &&
      after == before[tmp := out][makefile := if cpExit == 0 then out else before[makefile]]
    else
      r == Failure(FileNotFound(s.makefile)) && ran == [hashRun] && after == before
  }

  /**
   * The `with` block of `UpdatePkgMakefile.perform`: the makefile's lines
   * are read, the `.tmp` file is opened for writing, which empties it, and
   * each line is written to it rewritten.
   */
  method WriteRewrittenMakefile(fs: FileSystem, makefile: (string, string), tmp: (string, string),
                                tarfile: string, hash: string)
    requires makefile in fs.files && makefile != tmp
    modifies fs
    ensures fs.files == old(fs.files)[tmp := RewrittenMakefile(old(fs.files)[makefile], tarfile, hash)]
  {
    var lines := ReadLines(fs.files[makefile]);
    fs.files := fs.files[tmp := ""];
    var i := 0;
    while i < |lines|
      invariant 0 <= i <= |lines|
      invariant tmp in fs.files && fs.files == old(fs.files)[tmp := fs.files[tmp]]
      invariant fs.files[tmp] == Concat(RewriteMakefile(lines[..i], tarfile, hash))
    {
      var line := lines[i];
      RewriteStep(lines, i, tarfile, hash);
      var chunk;
      if StartsWith(line, UrlPrefix) {
        chunk := UrlLine(tarfile);
      } else if StartsWith(line, HashPrefix) {
        chunk := HashLine(hash);
      } else {
        chunk := line;
      }
      assert chunk == RewriteLine(line, tarfile, hash);
      fs.files := fs.files[tmp := fs.files[tmp] + chunk];
      i := i + 1;
    }
    assert lines[..i] == lines;
  }

  /**
   * `UpdatePkgMakefile.perform`, inside the step's directory.  The hash is
   * the text before the first space of what `sha256sum` printed, as
   * `basic_cmd_output` returns it, which is always `"\n"`; the
   * `hash_line is None` branch can therefore not be taken.  A missing
   * makefile raises before the `.tmp` file is opened.  The makefile is
   * replaced only by the final `cp`, whose success is the step's result;
   * the copy takes effect when `cp` exits with 0.
   */
  method PerformUpdatePkgMakefile(s: Step, p: Process, fs: FileSystem, os: Os)
    returns (r: Result<bool, Exception>, ran: seq<Run>)
    requires s.UpdatePkgMakefile?
    modifies p, fs
    ensures p.cwd == old(p.cwd)
    ensures PkgMakefileDone(s, os, old(fs.files), fs.files, r, ran)
  {
    var g := new GotoDir(s.workDir);
    g.Enter(p);
    var sha := "sha256sum " + s.tarfile;
    var hashLine := BasicCmdOutput(os.stdout(p.cwd, sha));
    ran := [Run(p.cwd, sha)];
    var hash := BeforeFirstSpace(hashLine);
    assert hash == "\n";
    var makefile, tmp := (p.cwd, s.makefile), (p.cwd, s.makefile + ".tmp");
    if makefile !in fs.files {
      g.Exit(p);
      return Failure(FileNotFound(s.makefile)), ran;
    }
    assert makefile != tmp by {
      assert |s.makefile| < |s.makefile + ".tmp"|;
    }
    WriteRewrittenMakefile(fs, makefile, tmp, s.tarfile, hash);
    ghost var out := RewrittenMakefile(old(fs.files)[makefile], s.tarfile, hash);
    var cp := CopyBackCmd(s.makefile);
    var cpExit := os.exitCode(p.cwd, cp);
    ran := ran + [Run(p.cwd, cp)];
    if cpExit == 0 {
      fs.files := fs.files[makefile := fs.files[tmp]];
      assert fs.files == old(fs.files)[tmp := out][makefile := out];
    } else {
      assert old(fs.files)[tmp := out][makefile := old(fs.files)[makefile]] == old(fs.files)[tmp := out];
    }
    r := Success(BasicCmd(cpExit, false));
    g.Exit(p);
  }

  /**
   * As written, a second attempt after a successful one succeeds too, and
   * leaves the makefile rewritten twice from the original.  With a tar file
   * name free of newlines that is the original rewritten once with the hash
   * `Newlines(2)`: each hash line is followed by two empty lines instead of
   * one (`RetryAddsBlankLine`).
   */
  method RetryUpdatePkgMakefile(s: Step, p: Process, fs: FileSystem, os: Os)
    returns (first: Result<bool, Exception>, second: Result<bool, Exception>)
    requires s.UpdatePkgMakefile?
    modifies p, fs
    ensures p.cwd == old(p.cwd)
    ensures first == Success(true) ==>
              var makefile := (s.workDir, s.makefile);
              second == Success(true) && makefile in old(fs.files) && makefile in fs.files &&
              fs.files[makefile]
              == RewrittenMakefile(RewrittenMakefile(old(fs.files)[makefile], s.tarfile, "\n"), s.tarfile, "\n")
    ensures first == Success(true) && '\n' !in s.tarfile ==>
              var makefile := (s.workDir, s.makefile);
              makefile in old(fs.files) && makefile in fs.files &&
              fs.files[makefile] == RewrittenMakefile(old(fs.files)[makefile], s.tarfile, Newlines(2))
  {
    var ran;
    ghost var original := fs.files;
    first, ran := PerformUpdatePkgMakefile(s, p, fs, os);
    second, ran := PerformUpdatePkgMakefile(s, p, fs, os);
    if first == Success(true) && '\n' !in s.tarfile {
      RetryTwice(original[(s.workDir, s.makefile)], s.tarfile);
    }
  }

  /**
   * `step.perform()` for any kind of step, as the run controller calls it:
   * the step's result, the commands it started and the files it leaves.
   * Each rewrite step raises exactly when the file it reads is missing.
   * Commands are not modelled as file writes, so a command step leaves the
   * modelled files as they were.
   */
  method PerformStep(s: Step, p: Process, fs: FileSystem, os: Os)
    returns (r: Result<bool, Exception>, ran: seq<Run>)
    modifies p, fs
    ensures p.cwd == old(p.cwd)
    ensures s.CmdStep? ==>
              var o := PerformCmdStep(s, old(p.cwd), os);
              r == o.ok && ran == o.ran && fs.files == old(fs.files)
    ensures s.UpdateFeedsConf? ==>
              ran == [] && FeedsConfDone(s, old(fs.files), fs.files, r) &&
              (r.Failure? <==> (s.workDir, "feeds.conf.default") !in old(fs.files))
    ensures s.UpdatePkgMakefile? ==>
              PkgMakefileDone(s, os, old(fs.files), fs.files, r, ran) &&
              (r.Failure? <==> (s.workDir, s.makefile) !in old(fs.files))
  {
    match s
    case CmdStep(_, _, _, _, _) =>
      var o := PerformCmdStep(s, p.cwd, os);
      r, ran := o.ok, o.ran;
    case UpdateFeedsConf(_, _) =>
      r := PerformUpdateFeedsConf(s, p, fs);
      ran := [];
    case UpdatePkgMakefile(_, _, _) =>
      r, ran := PerformUpdatePkgMakefile(s, p, fs, os);
  }
}

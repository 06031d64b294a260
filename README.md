# valibox builder: step pipeline and resumable run controller

This project models the core of the valibox build helper: the helper that
clones the LEDE source tree, the SIDN package feed and the SPIN source,
rewrites the feed registration, and builds firmware for one or more devices.
The helper reduces that work to an ordered list of steps and runs it with a
resumable cursor. The model covers five parts:

- **The step-list builder** (`Builder.BuildSteps`). It is a pure function of
  the configuration. It produces three clone steps, a checkout step, a pull
  step and a feeds.conf rewrite. Then come the two optional `feeds -a` steps.
  Then comes a four-step block for each target device.
- **The run controller** (`Controller.RunController`). It is a class with the
  cursor file `.last_step` as a field and a ghost log of step attempts.
  `PerformSteps` is the loop of `perform_steps`. `Session` is the part of
  `main` that picks the start step and removes the cursor after a full
  success. Both are proved against the recursive specification
  `Controller.RunFrom`, and the resume properties are lemmas about it.
- **The step decisions** (`Steps.PerformCmdStep`, `Conditionals.Perform`,
  `Util.BasicCmd`). These are the skip flag, the conditional, the exit code
  and the `may_fail` override. Commands are not run: the exit codes, captured
  output and path existence they would give are an `Os` value of functions.
- **The line-oriented rewrites** of `feeds.conf` and of a package makefile.
  These are methods with loops that write line by line into a `FileSystem`
  object whose files hold text. Each is proved equal to a function of the
  files before it. `readlines` cuts the text after each newline
  (`Lines.ReadLines`), so what one write put in a file can come back as
  several lines, and a last line without a newline is joined to the next
  write.
- **The working-directory guard** `gotodir`. It is a class over a `Process`
  object whose `cwd` it changes and restores.

The model follows the code as written, including behaviour its authors
evidently did not intend:

- `basic_cmd_output` returns `stdout.join("\n")`. This iterates the
  one-character string `"\n"`, so it always returns `"\n"`
  (`Util.BasicCmdOutput`). As a result, the checkout step's conditional always
  says "skip", so `git checkout` never runs (`Builder.CheckoutAlwaysSkipped`).
  For the same reason, every hash `UpdatePkgMakefile` writes is `"\n"`
  (`Steps.MakefileHashAsWritten`).
- The hash line `UpdatePkgMakefile` writes is therefore `PKG_HASH:=\n\n`,
  which `readlines` reads back as the hash line and an empty line. A later
  attempt rewrites the hash line to the same text and keeps the empty lines.
  So an attempt on a makefile whose hash lines are each followed by `k` empty
  lines leaves them followed by `k + 1`, and every other line as after one
  rewrite (`Steps.RetryAddsBlankLine`). After two attempts each hash line is
  followed by two empty lines (`Steps.RetryTwice`,
  `Steps.RetryUpdatePkgMakefile`). With a
  hash and a tar file name free of newlines the rewrite would be idempotent
  (`Steps.RewrittenMakefileIdempotent`).
- `UpdateFeedsConf` appends the feed line to the template's text. When the
  template's last line has no newline, the feed line is glued onto it
  (`Steps.FeedLineGluedAsWritten`).
- `configparser` stores the default `False` as the string `"False"`. That
  string is truthy, so the `feeds -a` steps are included by default
  (`Config.DefaultFeedFlagIsTruthy`, `Builder.OnlyBranchConfigured`).
- `'SPIN branch'` has no default. Without it in the configuration file,
  `build_steps` fails on its first lookup (`Builder.NoSpinBranchNoSteps`).
- `CmdOutputConditional.perform` refers to the bare names `cmd` (no
  directory) and `expected` (`skip_if_false` unset). Both raise `NameError`,
  which is modelled as a `Failure` (`Conditionals.Perform`). The polarity
  rule the code evidently means is `Conditionals.Decide`.
- `perform_steps` slices `steps[last_step - 1:]` with Python's slice rules.
  A cursor of 0 therefore performs only the last step
  (`Controller.ZeroCursorRunsLastStep`).
- `main` prints `steps[last_step - 1]` at start-up whenever the cursor is not
  1. That raises `IndexError` when the cursor names no step
  (`Controller.StaleCursorCrashes`).

Two error paths follow the code. A missing `feeds.conf.default` raises
`FileNotFound` after `feeds.conf` was opened for writing, so `feeds.conf` is
left empty (`Steps.PerformUpdateFeedsConf`). The `hash_line is None` branch
of `UpdatePkgMakefile` cannot be taken, because `basic_cmd_output` never
returns `None`; the makefile is rewritten with the hash `"\n"`.

## Model

| member | source | states |
|---|---|---|
| `Text.BeforeFirstSpace` | valibox_builder/steps.py:71 | `split(" ")[0]` is a prefix of the input without a space, followed in the input by a space or the end |
| `Text.IntLineRoundTrip` | builder.py:288-290 | the line `"%d\n" % k` that `perform_steps` writes reads back as `k`, which justifies modelling `.last_step` as an integer |
| `Util.GotoDir.constructor` | valibox_builder/util.py:5-7 | a new guard targets the given directory and has no saved directory |
| `Util.GotoDir.Enter` | valibox_builder/util.py:9-12 | entering saves the current directory and makes `goToDir` current |
| `Util.GotoDir.Exit` | valibox_builder/util.py:14-16 | exiting restores the saved directory, and leaves the directory unchanged when none was saved |
| `Util.WithDirectory` | valibox_builder/util.py:4-16 | inside the scope the directory is the target; afterwards it is the one from before |
| `Util.NestedDirectories` | valibox_builder/util.py:4-16 | two nested scopes see outer, inner, outer, and end where they started |
| `Util.BasicCmd` | valibox_builder/util.py:18-24 | with `may_fail` the result is always true; without it, true exactly when the exit code is 0 |
| `Util.BasicCmdOutput` | valibox_builder/util.py:26-29 | the result is `"\n"` whatever the command printed |
| `Conditionals.Decide` | valibox_builder/conditionals.py:19-22 | with `skip_if_false` the step is skipped iff output differs from expected; without it, iff they are equal |
| `Conditionals.PolarityFlips` | valibox_builder/conditionals.py:19-22 | for the same output the two polarities give opposite answers |
| `Conditionals.Perform` | valibox_builder/conditionals.py:13-32 | a directory test skips iff the path exists, running nothing; an output test without a directory raises `NameError` (`cmd`) before running anything; with a directory it runs the command there once, and skips iff expected is not `"\n"` when `skip_if_false` is set, else raises `NameError` (`expected`) |
| `Conditionals.Describe` | valibox_builder/conditionals.py:24-35 | the text starts with the conditional's kind and command, and `"not "` follows the command part iff `skip_if_false` is set |
| `Steps.FeedsConfLine` | valibox_builder/steps.py:41 | the package's feed line is `src-link sidn `, then exactly the absolute feed directory, then a newline; it is a single line when the directory holds no newline |
| `Steps.PerformCmdStep` | valibox_builder/steps.py:24-36 | a set skip flag gives success and runs nothing; a conditional that says skip gives success and runs only its own query; an error in the conditional is propagated; otherwise the command runs once, in the step's directory or the current one, and the result is true iff `may_fail` is set or the exit code is 0; a `may_fail` step never reports failure |
| `Steps.CmdText` | valibox_builder/steps.py:15-18 | the text is `in <dir>: ` or `in current dir: `, immediately followed by the command and nothing else |
| `Steps.Describe` | valibox_builder/steps.py:14-22 | a command step with a conditional shows the conditional's text, `"\n\t"`, then the command text; other steps start with `in <dir>: ` |
| `Lines.ReadLines` | valibox_builder/steps.py:50 | `readlines()` gives non-empty lines, each but the last ending in a newline, which together are the file's text |
| `Lines.ReadLinesOfLines` | valibox_builder/steps.py:50-52 | text written as such lines reads back as the same lines |
| `Lines.ReadLinesAppend` | valibox_builder/steps.py:77 | text that ends in a newline reads as its own lines followed by the lines of what comes after it |
| `Lines.ReadLinesGluedText` | valibox_builder/steps.py:50-52 | a line written after text whose last line lacks a newline reads back joined to that last line; the lines before it are unchanged |
| `Steps.FeedsConf` | valibox_builder/steps.py:48-52 | feeds.conf's text is the template's text followed by the feed line |
| `Steps.FeedLineAppended` | valibox_builder/steps.py:48-52 | for a template that is empty or ends in a newline, feeds.conf reads back as the template's lines and then the feed line, which occurs once more than in the template |
| `Steps.FeedLineGluedAsWritten` | valibox_builder/steps.py:48-52 | for a template whose last line lacks a newline, feeds.conf has as many lines as the template, and its last line is the template's last line with the feed line appended |
| `Steps.FeedDirRegistered` | valibox_builder/steps.py:41-52 | with the package's feed line, the last line of feeds.conf is a `src-link sidn` line naming the absolute feed directory |
| `Steps.PerformUpdateFeedsConf` | valibox_builder/steps.py:46-53 | with a template present, feeds.conf's text becomes `FeedsConf(template, line)` and the result is true; without one, feeds.conf is left empty and `FileNotFound` is raised; no other file changes and the directory is restored |
| `Steps.RetryUpdateFeedsConf` | valibox_builder/steps.py:46-53 | performing the feeds step twice gives the same result and the same files as performing it once |
| `Steps.RewriteMakefile` | valibox_builder/steps.py:77-83 | one write per line `readlines` gives, in order: `PKG_SOURCE_URL…` lines become the `file://` URL line, other `PKG_HASH…` lines become the hash line, and all other lines are copied unchanged |
| `Steps.RewrittenLinesKeepTheirKind` | valibox_builder/steps.py:78-81 | a written URL line is again a URL line; a written hash line is a hash line and not a URL line |
| `Steps.RewriteOutcome` | valibox_builder/steps.py:75-83 | after the rewrite a line is a URL line exactly where the input had one, and then names the tar file; every remaining hash line names the hash |
| `Steps.RewriteIdempotent` | valibox_builder/steps.py:77-83 | rewriting already rewritten lines changes nothing |
| `Steps.RewrittenMakefile` | valibox_builder/steps.py:75-83 | with a tar file name and a hash free of newlines, the `.tmp` text reads back as the rewritten lines of the makefile |
| `Steps.RewrittenMakefileIdempotent` | valibox_builder/steps.py:75-83 | with a tar file name and a hash free of newlines, rewriting the rewritten makefile text changes nothing |
| `Steps.RewrittenMakefileAppend` | valibox_builder/steps.py:75-83 | the rewrite of a text that ends in a newline, followed by more text, is the rewrite of each part, one after the other |
| `Steps.MakefileHashAsWritten` | valibox_builder/steps.py:67-71 | whatever `sha256sum` prints, the hash is `"\n"`, the hash line is `PKG_HASH:=\n\n`, and that reads back as two lines |
| `Steps.HashLineGrowsAsWritten` | valibox_builder/steps.py:67-83 | as written, a hash line followed by `m + 1` newlines is rewritten to a hash line followed by `m + 2` |
| `Steps.WriteRewrittenMakefile` | valibox_builder/steps.py:75-83 | the `.tmp` file's text becomes the rewrite of the makefile's text, and no other file changes |
| `Steps.PerformUpdatePkgMakefile` | valibox_builder/steps.py:64-85 | a missing makefile raises `FileNotFound` after only the checksum ran, with no file changed; otherwise the `.tmp` file holds the rewrite with hash `"\n"`, the makefile takes it only if `cp` exits 0, the result is `cp`'s success, only the checksum and `cp` ran, and the directory is restored |
| `Steps.RewrittenOneLine` | valibox_builder/steps.py:75-83 | a makefile of one line is rewritten to that line's rewrite |
| `Steps.HashLineOfNewlines` | valibox_builder/steps.py:79-80 | the hash line holding `k` newlines is `PKG_HASH:=` followed by `k + 1` newlines |
| `Steps.RetryLineAddsBlankLine` | valibox_builder/steps.py:75-83 | a line rewritten with the hash `Newlines(k)` and then again with `"\n"` is the line rewritten once with `Newlines(k + 1)` |
| `Steps.RewriteKeepsNewline` | valibox_builder/steps.py:76-81 | a rewritten line ends in a newline when the original did |
| `Steps.RetrySplits` | valibox_builder/steps.py:75-83 | two passes over a first line that ends in a newline treat it apart from the rest of the text |
| `Steps.RetryLinesAddBlankLine` | valibox_builder/steps.py:75-83 | for the text of any sequence of `readlines` lines, a rewrite with `Newlines(k)` then with `"\n"` equals one rewrite with `Newlines(k + 1)` |
| `Steps.RetryAddsBlankLine` | valibox_builder/steps.py:64-85 | for every makefile text and tar file name free of newlines, an attempt after a rewrite with the hash `Newlines(k)` leaves the makefile rewritten once with `Newlines(k + 1)`: each hash line gains one empty line and no other line changes |
| `Steps.RetryTwice` | valibox_builder/steps.py:64-85 | two attempts leave the makefile rewritten once with the hash `Newlines(2)`: each hash line followed by two empty lines |
| `Steps.RetryUpdatePkgMakefile` | valibox_builder/steps.py:64-85 | after a successful attempt, a second one succeeds too, because the `Os` answers are the same both times; it leaves the makefile rewritten twice from the original, and with a tar file name free of newlines that is the original rewritten once with the hash `Newlines(2)` |
| `Steps.PerformStep` | builder.py:260 | `perform()` on any step gives the result, the commands run and the files its kind's `perform` gives; a command step's effects on files are not modelled (see "Left out"); a rewrite step raises exactly when the file it reads is missing |
| `Config.Merge` | builder.py:188-191 | the merged sections are the union; each file option overrides, and every base option the file does not set survives |
| `Config.Load` | builder.py:174-191 | after `Config()` every default section and option is present, and every file value is the one looked up |
| `Config.Get` | builder.py:201-202 | the lookup succeeds iff the section and option are present, and fails with `NoSection` or `NoOption` otherwise |
| `Config.GetAfterLoad` | builder.py:188-202 | a lookup after `Config()` gives the file's value, else the default, else the matching error |
| `Config.DefaultFeedFlagIsTruthy` | builder.py:179 | unless the file overrides it, 'Update all feeds' reads back as `"False"`, which is truthy |
| `Config.SpinBranchHasNoDefault` | builder.py:174-186 | unless the file supplies it, looking up 'SPIN branch' fails with `NoOption` |
| `Builder.TargetBlock` | builder.py:241-245 | four unguarded steps in `lede-source`: copy the device's files, copy its diffconfig to `.config`, `make defconfig`, `make` |
| `Builder.TargetBlocks` | builder.py:241-245 | four steps per target; step `k` is step `k % 4` of the block of target `k / 4` |
| `Builder.BuildSteps` | builder.py:209-246 | the list is built iff the three lookups succeed; a missing 'SPIN branch' is the error reported; the list is the pipeline for the three values read |
| `Builder.PipelineLength` | builder.py:217-246 | the count is 6, plus 2 when the feed flag is truthy, plus 4 per target (3 targets for `all`, else 1) |
| `Builder.CloneStepsGuarded` | builder.py:218-226 | steps 1-3 are `git clone` commands with no directory, each guarded by the existence of the directory its clone creates |
| `Builder.CheckoutPullFeedsConf` | builder.py:227-232 | step 4 checks out the branch in `spin`, guarded by the branch query with `skip_if_false`; step 5 is an unguarded `git pull` in `spin`; step 6 is the feeds.conf rewrite in `lede-source` |
| `Builder.FeedStepsPlacement` | builder.py:233-235 | `feeds update -a` is step 7 iff the flag is truthy, and then `feeds install -a` is step 8 |
| `Builder.AllTargetsInOrder` | builder.py:236-245 | `all` yields the blocks of gl-ar150, gl-mt300a and gl-6416 in that order, and nothing after them |
| `Builder.SingleTarget` | builder.py:239-245 | any other value yields exactly one block, for that name |
| `Builder.NoSpinBranchNoSteps` | builder.py:227 | without 'SPIN branch' in the file, `build_steps` fails with `NoOption` |
| `Builder.OnlyBranchPipeline` | builder.py:227-236 | a file with only 'SPIN branch' gives the pipeline for that branch, the feed flag `"False"` and the architecture `all` |
| `Builder.OnlyBranchConfigured` | builder.py:227-246 | a file with only 'SPIN branch' gives 20 steps, with `feeds update -a` as step 7 |
| `Builder.CloneSkippedWhenPresent` | builder.py:218-226 | a clone step whose directory exists succeeds without starting any command |
| `Builder.CheckoutAlwaysSkipped` | builder.py:227-230 | for any branch other than `"\n"`, the checkout step succeeds after only the branch query; `git checkout` never runs |
| `Builder.PrintSteps` | builder.py:248-252 | one line per step: its 1-based number, which parses back to that number, then `":\t"`, then the step's description |
| `Controller.FirstFailure` | builder.py:256-262 | the first failing list index at or after the start, with every step before it succeeding; none when all succeed |
| `Controller.RunShape` | builder.py:254-263 | a run attempts consecutive steps, writing consecutive cursor values before each; it stops after the first failure, returns that step's cursor value, and leaves the last value written in the file |
| `Controller.NeverBelowCursor` | builder.py:256-258 | from a cursor of at least 1, step `k` is attempted only right after `k` is written, never below the cursor and never past the end |
| `Controller.FailureIndex` | builder.py:256-263 | from a cursor of at least 1, the returned `k` is the first failing step from the cursor on, with cursor ≤ k ≤ len(steps); step `k` is the last attempted and is left in the file; None is returned iff every step from the cursor on succeeds |
| `Controller.ResumeRestartsAtFailure` | builder.py:302-303 | resuming from a failed step re-attempts that step first and never one before it |
| `Controller.ZeroCursorRunsLastStep` | builder.py:256 | a cursor of 0 performs only the last step, under cursor value 0 |
| `Controller.ResumeScenario` | builder.py:254-263 | with cursor 3 and five steps, where step 3 succeeds and step 4 fails, the result is 4, the file holds 4, and only steps 3 and 4 were attempted |
| `Controller.SessionOutcome` | builder.py:302-320 | after a build the cursor file is gone iff no step failed, and otherwise holds the failed index; `[b]` starts at step 1 and `[c]` at the cursor read at start-up |
| `Controller.StaleCursorCrashes` | builder.py:291-293 | a cursor beyond the step list stops `main` with `IndexError` before any step |
| `Controller.RunController.constructor` | builder.py:285-290 | the controller starts with the given steps and cursor file and no attempts |
| `Controller.RunController.PerformSteps` | builder.py:254-263 | the returned index, the cursor file and the attempts are those of `PerformStepsSpec` for the outcomes given |
| `Controller.RunController.Session` | builder.py:285-320 | the result, the cursor file and the attempts are those of `SessionSpec`: the start-up check, the start step for `[c]` or `[b]`, the run, and removing the cursor after a success |

## Left out

- Terminal handling is not modelled: `_find_getch`, `getch`, the keypress loop of `main` (`s`, `e`, `q`, `?` and unknown keys), `show_help` and `show_main_options`. They are interactive I/O. `Session` takes the build command (`[c]` or `[b]`) as a parameter.
- Printing is not modelled (`Running: …`, the step banners, the failure report). `print_steps` is modelled by the lines it would print.
- Commands are not executed and `shlex` splitting is not modelled. Exit codes, captured output and path existence come from the `Os` parameter, as functions of the directory and the command.
- The file system is modelled as a map from (directory, file name) to the file's text. Paths are not resolved, and `os.chdir` into a missing directory is not modelled. `os.path.abspath` is a parameter of `Steps.FeedsConfLine`.
- `readlines` is modelled as cutting after each `\n`. The newline translation of Python's text mode (`\r\n` and `\r` read as `\n`) and text encodings are not modelled.
- The makefile rewrite reads the makefile whole before it empties the `.tmp` file; the source opens both first. The two are never the same file, so the order does not show.
- Steps.PerformStep: commands do not change the `FileSystem`. The clone that creates `feeds.conf.default` (builder.py:218) and the `cp` that writes `lede-source/.config` (builder.py:243) are not modelled as file writes, and the `Os` answers do not depend on earlier steps.
- `Steps.PerformUpdatePkgMakefile`: the effect of the final `cp` is assumed to be a copy that happens exactly when `cp` exits 0. The real tool is external.
- `configparser` is modelled only as defaults overridden by the file's sections. The INI syntax, the lower-casing of option names, the `DEFAULT` section, value interpolation and `save_config` are library behaviour and are not modelled.
- The cursor file is modelled as the integer it holds, or as absent. A file whose first line is not an integer would make `int()` raise `ValueError`; that is not modelled.
- Controller.RunController.PerformSteps: each step's `perform()` result is a supplied boolean. An exception raised inside a step is not modelled at this level; it would leave `.last_step` at that step and end the program. The exceptions the steps raise are modelled in `Conditionals.Perform`, `Steps.PerformCmdStep` and the two rewrite methods.
- builder.py repeats `gotodir`, `basic_cmd`, `basic_cmd_output`, the conditionals, `CmdStep` and `UpdateFeedsConf` from the package; each is modelled once. The pipeline uses builder.py's `UpdateFeedsConf`, with its fixed feed line and its description text (builder.py:149-155). The package version's description (valibox_builder/steps.py:43-44, which strips whitespace from the line) is not modelled.
- valibox_builder/util.py and valibox_builder/steps.py use `os`, `subprocess` and `shlex` without importing them, which would fail at run time. The model gives the functions their evident meaning.
- `check_config` is empty and is not modelled.

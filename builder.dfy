/**
 * `build_steps` and `print_steps` of builder.py: the ordered list of steps
 * that a configuration yields, and its numbered listing.
 */
module Builder {

  import opened Wrappers
  import opened Text
  import opened Util
  import opened Config
  import Conditionals
  import opened Steps

  /** The devices `target architecture = all` stands for, in build order. */
  const AllDevices: seq<string> := ["gl-ar150", "gl-mt300a", "gl-6416"]

  const Lede := "lede-source"
  const Spin := "spin"
  const BranchQuery := "git rev-parse --abbrev-ref HEAD"

  /** A clone command, run outside any directory and skipped when `dir`, the directory it creates, exists. */
  function CloneStep(cmd: string, dir: string): Step {
    CmdStep(cmd, None, false, false, Some(Conditionals.DirExists(dir)))
  }

  /** `git clone <url> <dir>`: the clone goes into the directory named on the command line. */
  function CloneInto(url: string, dir: string): Step {
    CloneStep("git clone " + url + " " + dir, dir)
  }

  /** `git clone <owner URL><dir>`: the clone goes into a directory named after the repository. */
  function CloneNamed(ownerUrl: string, dir: string): Step {
    CloneStep("git clone " + ownerUrl + dir, dir)
  }

  /** The three clone steps. */
  function CloneSteps(): seq<Step> {
    [ CloneInto("https://github.com/lede-project/source", "lede-source"),
      CloneNamed("https://github.com/SIDN/", "sidn_openwrt_pkgs"),
      CloneNamed("https://github.com/SIDN/", "spin") ]
  }

  /** The checkout of the configured branch in `spin`, skipped unless the branch differs. */
  function CheckoutStep(branch: string): Step {
    CmdStep("git checkout " + branch, Some(Spin), false, false,
            Some(Conditionals.CmdOutput(BranchQuery, branch, true, Some(Spin))))
  }

  /** builder.py's own `UpdateFeedsConf` registers the feed by a fixed relative path. */
  const FeedsConfStep := UpdateFeedsConf(Lede, "src-link sidn ../sidn_openwrt_pkgs\n")

  /** The six steps that come before the optional feed steps. */
  function Prelude(branch: string): (steps: seq<Step>) {
    CloneSteps() + [CheckoutStep(branch), Cmd("git pull", Some(Spin)), FeedsConfStep]
  }

  /** `if config.get('main', 'Update all feeds'):` is a truth test on the string read back. */
  function FeedSteps(updateAll: string): (steps: seq<Step>) {
    if Truthy(updateAll) then
      [Cmd("./scripts/feeds update -a", Some(Lede)), Cmd("./scripts/feeds install -a", Some(Lede))]
    else []
  }

  /** The devices a `target architecture` value selects. */
  function Targets(arch: string): (devices: seq<string>) {
    if arch == "all" then AllDevices else [arch]
  }

  /** The four steps that build one device, all in `lede-source`. */
  function TargetBlock(target: string): (block: seq<Step>)
    ensures |block| == 4
    ensures forall j :: 0 <= j < 4 ==> block[j].CmdStep? && block[j].directory == Some(Lede)
                                       && block[j].conditional.None? && !block[j].mayFail && !block[j].skipIf
    ensures block[0].cmd == "cp -r ../../valibox_build_tools/arch/" + target + "/files ./files"
    ensures block[1].cmd == "cp ../../valibox_build_tools/arch/" + target + "/diffconfig ./.config"
    ensures block[2].cmd == "make defconfig" && block[3].cmd == "make"
  {
    [ Cmd("cp -r ../../valibox_build_tools/arch/" + target + "/files ./files", Some(Lede)),
      Cmd("cp ../../valibox_build_tools/arch/" + target + "/diffconfig ./.config", Some(Lede)),
      Cmd("make defconfig", Some(Lede)),
      Cmd("make", Some(Lede)) ]
  }

  /** One block per target, in the targets' order. */
  function TargetBlocks(targets: seq<string>): (r: seq<Step>)
    ensures |r| == 4 * |targets|
    ensures forall k :: 0 <= k < |r| ==> r[k] == TargetBlock(targets[k / 4])[k % 4]
  {
    if targets == [] then []
    else
      var rest := TargetBlocks(targets[1..]);
      BlocksCons(targets[0], targets[1..], rest);
      assert [targets[0]] + targets[1..] == targets;
      TargetBlock(targets[0]) + rest
  }

  lemma BlocksCons(target: string, targets: seq<string>, rest: seq<Step>)
    requires |rest| == 4 * |targets|
    requires forall k :: 0 <= k < |rest| ==> rest[k] == TargetBlock(targets[k / 4])[k % 4]
    ensures forall k :: 0 <= k < |rest| + 4 ==>
              (TargetBlock(target) + rest)[k] == TargetBlock(([target] + targets)[k / 4])[k % 4]
  {
    var head := TargetBlock(target);
    forall k | 0 <= k < |rest| + 4
      ensures (head + rest)[k] == TargetBlock(([target] + targets)[k / 4])[k % 4]
    {
      if 4 <= k {
        var j := k - 4;
        assert (head + rest)[k] == rest[j] == TargetBlock(targets[j / 4])[j % 4];
        assert j / 4 == k / 4 - 1 && j % 4 == k % 4;
        assert ([target] + targets)[k / 4] == targets[j / 4];
      } else {
        assert (head + rest)[k] == head[k];
        assert k / 4 == 0 && k % 4 == k;
      }
    }
  }

  /** The step list for the three values `build_steps` reads from the configuration. */
  function Pipeline(branch: string, updateAll: string, arch: string): (steps: seq<Step>) {
    Prelude(branch) + FeedSteps(updateAll) + TargetBlocks(Targets(arch))
  }

  /**
   * `build_steps(config)`: the three lookups happen in this order, and the
   * first one that fails raises (here: is returned) before any later one.
   */
  function BuildSteps(c: Config): (r: Result<seq<Step>, ConfigError>)
    ensures r.Success? <==>
              Get(c, "main", "SPIN branch").Success? && Get(c, "main", "Update all feeds").Success?
              && Get(c, "main", "target architecture").Success?
    ensures Get(c, "main", "SPIN branch").Failure? ==> r == Failure(Get(c, "main", "SPIN branch").error)
    ensures r.Success? ==>
              r.value == Pipeline(Get(c, "main", "SPIN branch").value,
                                  Get(c, "main", "Update all feeds").value,
                                  Get(c, "main", "target architecture").value)
  {
    match Get(c, "main", "SPIN branch")
    case Failure(e) => Failure(e)
    case Success(branch) =>
      match Get(c, "main", "Update all feeds")
      case Failure(e) => Failure(e)
      case Success(updateAll) =>
        match Get(c, "main", "target architecture")
        case Failure(e) => Failure(e)
        case Success(arch) => Success(Pipeline(branch, updateAll, arch))
  }

  /** The step count: six, two more when the feed flag is truthy, four per target. */
  lemma PipelineLength(branch: string, updateAll: string, arch: string)
    ensures |Pipeline(branch, updateAll, arch)|
            == 6 + (if Truthy(updateAll) then 2 else 0) + 4 * (if arch == "all" then 3 else 1)
  {
  }

  /** The directories the three clone steps create, in step order. */
  const CloneDirs: seq<string> := ["lede-source", "sidn_openwrt_pkgs", "spin"]

  predicate EndsWith(s: string, suffix: string) {
    |suffix| <= |s| && s[|s| - |suffix|..] == suffix
  }

  lemma CloneCommandShape(head: string, dir: string)
    requires StartsWith(head, "git clone ")
    ensures StartsWith(head + dir, "git clone ") && EndsWith(head + dir, dir)
  {
    assert (head + dir)[..10] == head[..10];
    assert (head + dir)[|head|..] == dir;
  }

  /**
   * The first three steps clone a repository each, outside any directory,
   * and are skipped when the directory that clone creates already exists.
   */
  lemma CloneStepsGuarded(branch: string, updateAll: string, arch: string)
    ensures var steps := Pipeline(branch, updateAll, arch);
            |steps| > 3 &&
            forall i :: 0 <= i < 3 ==>
              steps[i].CmdStep? && steps[i].directory.None? && !steps[i].skipIf && !steps[i].mayFail
              && StartsWith(steps[i].cmd, "git clone ") && EndsWith(steps[i].cmd, CloneDirs[i])
              && steps[i].conditional == Some(Conditionals.DirExists(CloneDirs[i]))
  {
    var steps := Pipeline(branch, updateAll, arch);
    var c := CloneSteps();
    assert steps[..3] == c;
    forall i | 0 <= i < 3
      ensures StartsWith(c[i].cmd, "git clone ") && EndsWith(c[i].cmd, CloneDirs[i])
    {
      var head := if i == 0 then "git clone " + "https://github.com/lede-project/source" + " "
                  else "git clone " + "https://github.com/SIDN/";
      assert c[i].cmd == head + CloneDirs[i];
      assert head[..10] == "git clone ";
      CloneCommandShape(head, CloneDirs[i]);
    }
  }

  /**
   * Then the checkout of the configured branch in `spin`, guarded by the
   * branch query with `skip_if_false` set, an unguarded `git pull` there,
   * and the feeds.conf rewrite in `lede-source`.
   */
  lemma CheckoutPullFeedsConf(branch: string, updateAll: string, arch: string)
    ensures var steps := Pipeline(branch, updateAll, arch);
            |steps| > 5 &&
            steps[3] == CmdStep("git checkout " + branch, Some("spin"), false, false,
                                Some(Conditionals.CmdOutput("git rev-parse --abbrev-ref HEAD", branch, true, Some("spin")))) &&
            steps[4] == CmdStep("git pull", Some("spin"), false, false, None) &&
            steps[5] == UpdateFeedsConf("lede-source", "src-link sidn ../sidn_openwrt_pkgs\n")
  {
  }

  /** The two `feeds -a` steps come right after the feeds.conf rewrite exactly when the flag is truthy. */
  lemma FeedStepsPlacement(branch: string, updateAll: string, arch: string)
    ensures var steps := Pipeline(branch, updateAll, arch);
            |steps| > 7 &&
            (Truthy(updateAll) <==> steps[6] == Cmd("./scripts/feeds update -a", Some("lede-source"))) &&
            (Truthy(updateAll) ==> steps[7] == Cmd("./scripts/feeds install -a", Some("lede-source")))
  {
    var steps := Pipeline(branch, updateAll, arch);
    if !Truthy(updateAll) {
      assert steps[6] == TargetBlock(Targets(arch)[0])[0];
      assert steps[6].cmd[0] == 'c';
    }
  }

  /** Where the device blocks start. */
  function BlocksStart(updateAll: string): nat {
    6 + if Truthy(updateAll) then 2 else 0
  }

  /** `all` yields the blocks of gl-ar150, gl-mt300a and gl-6416, in that order, and nothing after them. */
  lemma AllTargetsInOrder(branch: string, updateAll: string)
    ensures var steps := Pipeline(branch, updateAll, "all");
            var b := BlocksStart(updateAll);
            |steps| == b + 12 &&
            steps[b..b + 4] == TargetBlock("gl-ar150") &&
            steps[b + 4..b + 8] == TargetBlock("gl-mt300a") &&
            steps[b + 8..b + 12] == TargetBlock("gl-6416")
  {
    var x, y, z := TargetBlock("gl-ar150"), TargetBlock("gl-mt300a"), TargetBlock("gl-6416");
    AllDeviceBlocks();
    ThreeParts(Prelude(branch) + FeedSteps(updateAll), x, y, z);
  }

  lemma AllDeviceBlocks()
    ensures TargetBlocks(AllDevices) == TargetBlock("gl-ar150") + TargetBlock("gl-mt300a") + TargetBlock("gl-6416")
  {
    assert AllDevices[1..] == ["gl-mt300a", "gl-6416"];
    assert AllDevices[1..][1..] == ["gl-6416"];
    assert TargetBlocks(["gl-6416"]) == TargetBlock("gl-6416") + [];
  }

  lemma ThreeParts<T>(a: seq<T>, x: seq<T>, y: seq<T>, z: seq<T>)
    ensures var s := a + (x + y + z);
            s[|a|..|a| + |x|] == x && s[|a| + |x|..|a| + |x| + |y|] == y
            && s[|a| + |x| + |y|..|a| + |x| + |y| + |z|] == z
  {
    var s := a + (x + y + z);
    assert s[|a|..] == x + y + z;
    assert (x + y + z)[..|x|] == x;
    assert (x + y + z)[|x|..|x| + |y|] == y;
    assert (x + y + z)[|x| + |y|..] == z;
  }

  /** Any other value is taken as one device name and yields exactly its block. */
  lemma SingleTarget(branch: string, updateAll: string, arch: string)
    requires arch != "all"
    ensures var steps := Pipeline(branch, updateAll, arch);
            var b := BlocksStart(updateAll);
            |steps| == b + 4 && steps[b..] == TargetBlock(arch)
  {
    var steps := Pipeline(branch, updateAll, arch);
    assert steps[BlocksStart(updateAll)..] == TargetBlocks([arch]);
    assert TargetBlocks([arch]) == TargetBlock(arch) + TargetBlocks([]);
  }

  /** Without a 'SPIN branch' in the file, `build_steps` raises on its first lookup. */
  lemma NoSpinBranchNoSteps(file: Sections)
    requires "main" !in file || "SPIN branch" !in file["main"]
    ensures BuildSteps(Load(file)) == Failure(NoOption("main", "SPIN branch"))
  {
    SpinBranchHasNoDefault(file);
  }

  /** A file that supplies only 'SPIN branch' gets the defaults for the other two values. */
  lemma OnlyBranchPipeline(branch: string)
    ensures BuildSteps(Load(map["main" := map["SPIN branch" := branch]]))
            == Success(Pipeline(branch, "False", "all"))
  {
    var file := map["main" := map["SPIN branch" := branch]];
    var c := Load(file);
    GetAfterLoad(file, "main", "SPIN branch");
    assert Get(c, "main", "SPIN branch") == Success(branch);
    DefaultFeedFlagIsTruthy(file);
    GetAfterLoad(file, "main", "target architecture");
    assert Get(c, "main", "target architecture") == Success("all");
  }

  /**
   * A file that supplies only 'SPIN branch' gives the 20-step default
   * pipeline: the default 'False' still switches the feed steps on.
   */
  lemma OnlyBranchConfigured(branch: string)
    ensures var r := BuildSteps(Load(map["main" := map["SPIN branch" := branch]]));
            r.Success? && |r.value| == 20 && r.value[6] == Cmd("./scripts/feeds update -a", Some("lede-source"))
  {
    OnlyBranchPipeline(branch);
    PipelineLength(branch, "False", "all");
    FeedStepsPlacement(branch, "False", "all");
  }

  /** A clone step whose directory exists succeeds without starting any command. */
  lemma CloneSkippedWhenPresent(branch: string, updateAll: string, arch: string, i: nat, cwd: string, os: Os)
    requires i < 3
    requires os.pathExists(cwd, CloneDirs[i])
    ensures PerformCmdStep(Pipeline(branch, updateAll, arch)[i], cwd, os) == Outcome(Success(true), [])
  {
    CloneStepsGuarded(branch, updateAll, arch);
  }

  /**
   * As written, the checkout step never runs `git checkout`: the branch
   * query's output reads back as "\n", which differs from any real branch
   * name, so the conditional always says "skip".
   */
  lemma CheckoutAlwaysSkipped(branch: string, updateAll: string, arch: string, cwd: string, os: Os)
    requires branch != "\n"
    ensures PerformCmdStep(Pipeline(branch, updateAll, arch)[3], cwd, os)
            == Outcome(Success(true), [Run("spin", "git rev-parse --abbrev-ref HEAD")])
  {
    CheckoutPullFeedsConf(branch, updateAll, arch);
  }

  /** Line `n` of `print_steps` for step `s`: the number, which parses back to `n`, then ":\t", then the step's description. */
  predicate NumberedLine(line: string, n: int, s: Step) {
    var number := IntToDecimal(n);
    StartsWith(line, number + ":\t") && ParseInt(number) == Some(n)
    && line[|number| + 2..] == Describe(s)
  }

  /** `print_steps`: one line per step, numbered from 1, number and description separated by ":\t". */
  method PrintSteps(steps: seq<Step>) returns (lines: seq<string>)
    ensures |lines| == |steps|
    ensures forall k :: 0 <= k < |steps| ==> NumberedLine(lines[k], k + 1, steps[k])
  {
    lines := [];
    var i := 1;
    while i <= |steps|
      invariant 1 <= i <= |steps| + 1
      invariant |lines| == i - 1
      invariant forall k :: 0 <= k < |lines| ==> NumberedLine(lines[k], k + 1, steps[k])
    {
      var line := NumberLine(i, steps[i - 1]);
      NumberedAppend(lines, line, steps);
      lines := lines + [line];
      i := i + 1;
    }
  }

  lemma NumberedAppend(lines: seq<string>, line: string, steps: seq<Step>)
    requires |lines| < |steps|
    requires forall k :: 0 <= k < |lines| ==> NumberedLine(lines[k], k + 1, steps[k])
    requires NumberedLine(line, |lines| + 1, steps[|lines|])
    ensures forall k :: 0 <= k < |lines| + 1 ==> NumberedLine((lines + [line])[k], k + 1, steps[k])
  {
    forall k | 0 <= k < |lines| + 1
      ensures NumberedLine((lines + [line])[k], k + 1, steps[k])
    {
      if k < |lines| {
        assert (lines + [line])[k] == lines[k];
      } else {
        assert (lines + [line])[k] == line;
      }
    }
  }

  function NumberLine(n: int, s: Step): (line: string)
    ensures NumberedLine(line, n, s)
  {
    var number := IntToDecimal(n);
    var line := number + ":\t" + Describe(s);
    assert line[..|number| + 2] == number + ":\t";
    assert line[|number| + 2..] == Describe(s);
    IntTextRoundTrip(n);
    line
  }
}

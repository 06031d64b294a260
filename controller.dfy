/**
 * The run controller of builder.py: `perform_steps` and the part of `main`
 * that picks the start step and removes the cursor file `.last_step`.
 *
 * The cursor file is kept as the integer it holds (`Text.IntLineRoundTrip`
 * shows that the `"%d\n"` the controller writes reads back as that
 * integer).  What each step's `perform()` returns is supplied as a sequence
 * of booleans, one per step.
 */
module Controller {

  import opened Wrappers
  import opened Text
  import opened Steps

  /**
   * One step attempt: the cursor value written to `.last_step`, then the
   * 1-based position in the step list of the step whose `perform()` was
   * called right after that write.
   */
  datatype Attempt = Attempt(cursor: int, position: nat)

  /** The start index of Python's slice `steps[from:]` on a list of length `n`. */
  function SliceStart(from: int, n: nat): (start: nat) {
    if from >= 0 then (if from <= n then from else n)
    else if -from <= n then n + from
    else 0
  }

  /** What a run of the loop leaves: the returned index, the attempts made, and the cursor file. */
  datatype RunResult = RunResult(failed: Option<int>, attempts: seq<Attempt>, cursor: Option<int>)

  /**
   * The loop of `perform_steps` from list index `i` with cursor value `k`:
   * write `k`, perform step `i + 1`, stop with `k` if it failed, otherwise
   * go on with `k + 1`.  `cursor` is the cursor file before the loop.
   */
  function RunFrom(outcomes: seq<bool>, k: int, i: nat, cursor: Option<int>): (r: RunResult)
    requires i <= |outcomes|
    decreases |outcomes| - i
  {
    if i == |outcomes| then RunResult(None, [], cursor)
    else if !outcomes[i] then RunResult(Some(k), [Attempt(k, i + 1)], Some(k))
    else
      var rest := RunFrom(outcomes, k + 1, i + 1, Some(k));
      RunResult(rest.failed, [Attempt(k, i + 1)] + rest.attempts, rest.cursor)
  }

  /** `perform_steps(steps, last_step)` with the given step outcomes. */
  function PerformStepsSpec(outcomes: seq<bool>, lastStep: int, cursor: Option<int>): (r: RunResult) {
    RunFrom(outcomes, lastStep, SliceStart(lastStep - 1, |outcomes|), cursor)
  }

  /** The list index of the first failing step at or after `i`, if any. */
  function FirstFailure(outcomes: seq<bool>, i: nat): (r: Option<nat>)
    requires i <= |outcomes|
    ensures r.Some? ==> i <= r.value < |outcomes| && !outcomes[r.value]
                        && forall j :: i <= j < r.value ==> outcomes[j]
    ensures r.None? ==> forall j :: i <= j < |outcomes| ==> outcomes[j]
    decreases |outcomes| - i
  {
    if i == |outcomes| then None
    else if !outcomes[i] then Some(i)
    else FirstFailure(outcomes, i + 1)
  }

  /** How many steps a run from list index `i` attempts: up to and including the first failure. */
  function Attempted(outcomes: seq<bool>, i: nat): nat
    requires i <= |outcomes|
  {
    var f := FirstFailure(outcomes, i);
    if f.Some? then f.value + 1 - i else |outcomes| - i
  }

  /**
   * The shape of every run: it attempts consecutive steps from `i + 1`,
   * writing consecutive cursor values from `k` before each, stops after the
   * first failure and returns that step's cursor value, and leaves the last
   * value written in the cursor file.
   */
  lemma {:induction false} RunShape(outcomes: seq<bool>, k: int, i: nat, cursor: Option<int>)
    requires i <= |outcomes|
    ensures var r := RunFrom(outcomes, k, i, cursor);
            var m := Attempted(outcomes, i);
            var f := FirstFailure(outcomes, i);
            i + m <= |outcomes| && |r.attempts| == m &&
            (forall t :: 0 <= t < m ==> r.attempts[t] == Attempt(k + t, i + 1 + t)) &&
            r.failed == (if f.Some? then Some(k + f.value - i) else None) &&
            r.cursor == (if m == 0 then cursor else Some(k + m - 1))
    decreases |outcomes| - i
  {
    if i < |outcomes| && outcomes[i] {
      RunShape(outcomes, k + 1, i + 1, Some(k));
      var rest := RunFrom(outcomes, k + 1, i + 1, Some(k));
      var r := RunFrom(outcomes, k, i, cursor);
      forall t | 0 <= t < Attempted(outcomes, i)
        ensures r.attempts[t] == Attempt(k + t, i + 1 + t)
      {
        if t > 0 {
          assert r.attempts[t] == rest.attempts[t - 1];
        }
      }
    }
  }

  /**
   * From a cursor of 1 or more, `perform_steps` performs exactly the steps
   * from `lastStep` on, in order, up to the first failure: never one below
   * `lastStep`, and each right after writing its own index to the cursor file.
   */
  lemma NeverBelowCursor(outcomes: seq<bool>, lastStep: int, cursor: Option<int>)
    requires lastStep >= 1
    ensures var r := PerformStepsSpec(outcomes, lastStep, cursor);
            forall t :: 0 <= t < |r.attempts| ==>
              r.attempts[t].position == r.attempts[t].cursor == lastStep + t &&
              r.attempts[t].position <= |outcomes|
  {
    var i := SliceStart(lastStep - 1, |outcomes|);
    RunShape(outcomes, lastStep, i, cursor);
    if lastStep - 1 > |outcomes| {
      assert i == |outcomes| && Attempted(outcomes, i) == 0;
    }
  }

  /**
   * From a cursor of 1 or more, `perform_steps` returns the index of the
   * first failing step at or after `lastStep`, which lies between `lastStep`
   * and the number of steps, after attempting it last and leaving it in the
   * cursor file; it returns None when every step from `lastStep` on succeeds.
   */
  lemma FailureIndex(outcomes: seq<bool>, lastStep: int, cursor: Option<int>)
    requires lastStep >= 1
    ensures var r := PerformStepsSpec(outcomes, lastStep, cursor);
            (r.failed.Some? ==>
               var k := r.failed.value;
               lastStep <= k <= |outcomes| && !outcomes[k - 1] &&
               (forall j :: lastStep - 1 <= j < k - 1 ==> outcomes[j]) &&
               r.attempts != [] && r.attempts[|r.attempts| - 1] == Attempt(k, k) &&
               r.cursor == Some(k)) &&
            (r.failed.None? <==> forall j :: lastStep - 1 <= j < |outcomes| ==> outcomes[j])
  {
    var i := SliceStart(lastStep - 1, |outcomes|);
    RunShape(outcomes, lastStep, i, cursor);
  }

  /**
   * Resuming from the step a run failed at re-attempts that step first and
   * never any step before it, whatever the outcomes of the second run.
   */
  lemma ResumeRestartsAtFailure(first: seq<bool>, second: seq<bool>, lastStep: int, cursor: Option<int>)
    requires |first| == |second|
    requires lastStep >= 1
    requires PerformStepsSpec(first, lastStep, cursor).failed.Some?
    ensures var k := PerformStepsSpec(first, lastStep, cursor).failed.value;
            var again := PerformStepsSpec(second, k, Some(k));
            again.attempts != [] && again.attempts[0].cursor == again.attempts[0].position == k &&
            forall t :: 0 <= t < |again.attempts| ==> again.attempts[t].position >= k
  {
    FailureIndex(first, lastStep, cursor);
    var k := PerformStepsSpec(first, lastStep, cursor).failed.value;
    assert 1 <= k <= |second|;
    NeverBelowCursor(second, k, Some(k));
    RunShape(second, k, k - 1, Some(k));
  }

  /**
   * A cursor of 0 or below selects steps from the end of the list, as
   * Python's negative slice start does: with 0 only the last step is
   * performed, under cursor value 0.
   */
  lemma ZeroCursorRunsLastStep(outcomes: seq<bool>, cursor: Option<int>)
    requires |outcomes| > 0
    ensures var r := PerformStepsSpec(outcomes, 0, cursor);
            r.attempts == [Attempt(0, |outcomes|)] &&
            r.failed == (if outcomes[|outcomes| - 1] then None else Some(0))
  {
    RunShape(outcomes, 0, |outcomes| - 1, cursor);
  }

  /** The resume scenario: cursor 3 of 5 steps, step 3 succeeds and step 4 fails. */
  lemma ResumeScenario(a: bool, b: bool, e: bool)
    ensures var r := PerformStepsSpec([a, b, true, false, e], 3, Some(3));
            r.failed == Some(4) && r.cursor == Some(4) &&
            r.attempts == [Attempt(3, 3), Attempt(4, 4)]
  {
    RunShape([a, b, true, false, e], 3, 2, Some(3));
  }

  /** The keys of `main`'s menu that start a build. */
  datatype Command =
    | Continue   // [c]: from the cursor read at start-up
    | Begin      // [b]: from the first step

  /** `main`'s start cursor: 1, or the integer in `.last_step` when that file exists. */
  function StartCursor(cursorFile: Option<int>): (cursor: int) {
    if cursorFile.Some? then cursorFile.value else 1
  }

  /** Whether Python's `steps[index]` is defined on a list of length `n`. */
  predicate PyIndexOk(index: int, n: nat) {
    -(n as int) <= index < n
  }

  /** `main` stops with an `IndexError` when a cursor other than 1 names no step. */
  datatype Crash = IndexError(index: int)

  /** What a session of `main` with one build command does, as a function of the state before it. */
  datatype SessionResult = SessionResult(result: Result<Option<int>, Crash>, attempts: seq<Attempt>,
                                         cursor: Option<int>)

  function SessionSpec(cmd: Command, outcomes: seq<bool>, cursorFile: Option<int>): (r: SessionResult) {
    var start := StartCursor(cursorFile);
    if start != 1 && !PyIndexOk(start - 1, |outcomes|) then
      SessionResult(Failure(IndexError(start - 1)), [], cursorFile)
    else
      var from := if cmd == Begin then 1 else start;
      var r := PerformStepsSpec(outcomes, from, cursorFile);
      SessionResult(Success(r.failed), r.attempts, if r.failed.None? then None else r.cursor)
  }

  /**
   * A session ends with the cursor file removed exactly when the build got
   * through, and otherwise holding the index of the step that failed; `[b]`
   * starts at step 1 and `[c]` at the cursor read at start-up.
   */
  lemma SessionOutcome(cmd: Command, outcomes: seq<bool>, cursorFile: Option<int>)
    requires StartCursor(cursorFile) >= 1
    ensures var s := SessionSpec(cmd, outcomes, cursorFile);
            var from := if cmd == Begin then 1 else StartCursor(cursorFile);
            s.result.Success? ==>
              (s.result.value.None? <==> s.cursor.None?) &&
              (s.result.value.Some? ==>
                 var k := s.result.value.value;
                 s.cursor == Some(k) && 1 <= k <= |outcomes| && !outcomes[k - 1]) &&
              (s.attempts != [] ==> s.attempts[0] == Attempt(from, from)) &&
              (forall t :: 0 <= t < |s.attempts| ==> s.attempts[t].position >= from)
  {
    var from := if cmd == Begin then 1 else StartCursor(cursorFile);
    FailureIndex(outcomes, from, cursorFile);
    NeverBelowCursor(outcomes, from, cursorFile);
  }

  /** A cursor left by a longer step list than the current one stops `main` before its menu. */
  lemma StaleCursorCrashes(cmd: Command, outcomes: seq<bool>, k: int)
    requires k > |outcomes| && k != 1
    ensures SessionSpec(cmd, outcomes, Some(k)).result == Failure(IndexError(k - 1))
    ensures SessionSpec(cmd, outcomes, Some(k)).attempts == []
  {
  }

  /** The persisted cursor and the steps of one invocation of the builder. */
  class RunController {
    const steps: seq<Step>
    var cursorFile: Option<int>
    ghost var attempts: seq<Attempt>

    constructor (steps: seq<Step>, cursorFile: Option<int>)
      ensures this.steps == steps && this.cursorFile == cursorFile && attempts == []
    {
      this.steps := steps;
      this.cursorFile := cursorFile;
      attempts := [];
    }

    /**
     * `perform_steps(steps, last_step)`: walk `steps[last_step - 1:]`,
     * writing the cursor before each step and returning it at the first
     * step that fails.
     */
    method PerformSteps(lastStep: int, outcomes: seq<bool>) returns (failed: Option<int>)
      requires |outcomes| == |steps|
      modifies this
      ensures var r := PerformStepsSpec(outcomes, lastStep, old(cursorFile));
              failed == r.failed && cursorFile == r.cursor && attempts == old(attempts) + r.attempts
    {
      var i := SliceStart(lastStep - 1, |steps|);
      ghost var start := i;
      var k := lastStep;
      while i < |steps|
        invariant start <= i <= |steps|
        invariant var whole := RunFrom(outcomes, lastStep, start, old(cursorFile));
                  var rest := RunFrom(outcomes, k, i, cursorFile);
                  whole.failed == rest.failed && whole.cursor == rest.cursor &&
                  old(attempts) + whole.attempts == attempts + rest.attempts
        decreases |steps| - i
      {
        cursorFile := Some(k);
        attempts := attempts + [Attempt(k, i + 1)];
        if !outcomes[i] {
          return Some(k);
        }
        k := k + 1;
        i := i + 1;
      }
      return None;
    }

    /**
     * `main` with one build command: read the start cursor (stopping with
     * `IndexError` when its notice names no step), run from it or from 1,
     * and remove the cursor file after a full success.
     */
    method Session(cmd: Command, outcomes: seq<bool>) returns (result: Result<Option<int>, Crash>)
      requires |outcomes| == |steps|
      modifies this
      ensures var s := SessionSpec(cmd, outcomes, old(cursorFile));
              result == s.result && cursorFile == s.cursor && attempts == old(attempts) + s.attempts
    {
      var lastStep := StartCursor(cursorFile);
      if lastStep != 1 && !PyIndexOk(lastStep - 1, |steps|) {
        return Failure(IndexError(lastStep - 1));
      }
      if cmd == Begin {
        lastStep := 1;
      }
      var failed := PerformSteps(lastStep, outcomes);
      if failed.None? && cursorFile.Some? {
        cursorFile := None;
      }
      result := Success(failed);
    }
  }
}

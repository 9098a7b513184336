/**
 * The builder container's lifecycle as `build` in scripts/build.py drives it:
 * `docker run` an idle container, `docker exec` the build script in it,
 * `docker cp` the outputs out, `docker stop` it and, on request, `docker rm` it.
 * Every call goes through `check_call`/`check_output`, so the first failing
 * call raises and no later call is made; nothing stops or removes the
 * container on the way out.
 */
module Orchestrator {
  import opened OrderedDict
  import opened PyText

  // ---------------------------------------------------------------------------
  // Command vectors

  /** `str(root / name)` for the resolved, absolute repository root `root`. */
  function JoinPath(root: string, name: string): string
  {
    if |root| > 0 && root[|root| - 1] == '/' then root + name else root + "/" + name
  }

  /** `"{}={}".format(k, v)` for one entry of `envs`. */
  function Assignment(entry: (string, Value)): string
  {
    entry.0 + "=" + Str(entry.1)
  }

  /** The `-e K=V` pairs for the entries of `envs`, in order. */
  function EnvFlags(envs: seq<(string, Value)>): seq<string>
    decreases |envs|
  {
    if envs == [] then [] else EnvFlags(envs[..|envs| - 1]) + ["-e", Assignment(envs[|envs| - 1])]
  }

  /** The fixed head of the `docker run` command: detached, helper scripts mounted read-only. */
  function RunHead(root: string): seq<string>
  {
    ["docker", "run", "-d", "-v", JoinPath(root, "scripts") + ":/scripts:ro"]
  }

  /** The `docker run` command vector. */
  function RunArgs(root: string, isTty: bool, tfVersion: string, envs: seq<(string, Value)>, image: string): seq<string>
  {
    RunHead(root) + (if isTty then ["-t"] else []) + ["-e", "TF_VER=" + tfVersion]
    + EnvFlags(envs) + [image, "sleep", "inf"]
  }

  function ExecArgs(id: string): seq<string>
  {
    ["docker", "exec", id, "bash", "/scripts/inside-docker.sh"]
  }

  function CopyArgs(id: string, root: string): seq<string>
  {
    ["docker", "cp", id + ":/build/.", JoinPath(root, "build")]
  }

  function StopArgs(id: string): seq<string>
  {
    ["docker", "stop", id]
  }

  function RemoveArgs(id: string): seq<string>
  {
    ["docker", "rm", id]
  }

  /** Adding an entry adds its `-e`, `K=V` pair at the end. */
  lemma EnvFlagsSnoc(envs: seq<(string, Value)>, i: nat)
    requires i < |envs|
    ensures EnvFlags(envs[..i + 1]) == EnvFlags(envs[..i]) + ["-e", Assignment(envs[i])]
  {
    assert envs[..i + 1][..i] == envs[..i];
  }

  lemma {:induction false} EnvFlagsLength(envs: seq<(string, Value)>)
    ensures |EnvFlags(envs)| == 2 * |envs|
    decreases |envs|
  {
    if envs != [] {
      EnvFlagsLength(envs[..|envs| - 1]);
    }
  }

  /** Entry `i` gives the pair at positions `2 * i` and `2 * i + 1`. */
  lemma {:induction false} EnvFlagsAt(envs: seq<(string, Value)>, i: nat)
    requires i < |envs|
    ensures |EnvFlags(envs)| == 2 * |envs|
    ensures EnvFlags(envs)[2 * i] == "-e" && EnvFlags(envs)[2 * i + 1] == Assignment(envs[i])
    decreases |envs|
  {
    var n := |envs| - 1;
    var front := EnvFlags(envs[..n]);
    EnvFlagsLength(envs);
    EnvFlagsLength(envs[..n]);
    if i < n {
      EnvFlagsAt(envs[..n], i);
      assert envs[..n][i] == envs[i];
      assert EnvFlags(envs)[2 * i] == front[2 * i];
      assert EnvFlags(envs)[2 * i + 1] == front[2 * i + 1];
    }
  }

  /** The `-e K=V` pairs: one `-e` and one `K=V` per entry, in the entries' order. */
  lemma EnvFlagsShape(envs: seq<(string, Value)>)
    ensures |EnvFlags(envs)| == 2 * |envs|
    ensures forall i :: 0 <= i < |envs| ==>
              EnvFlags(envs)[2 * i] == "-e" && EnvFlags(envs)[2 * i + 1] == Assignment(envs[i])
  {
    EnvFlagsLength(envs);
    forall i | 0 <= i < |envs|
      ensures EnvFlags(envs)[2 * i] == "-e" && EnvFlags(envs)[2 * i + 1] == Assignment(envs[i])
    {
      EnvFlagsAt(envs, i);
    }
  }

  lemma AppendAssoc<T>(a: seq<T>, b: seq<T>, c: seq<T>)
    ensures a + b + c == a + (b + c)
  {
  }

  lemma SliceIndex<T>(c: seq<T>, a: nat, b: nat, j: nat)
    requires a <= b <= |c| && j < b - a
    ensures c[a + j] == c[a..b][j]
  {
  }

  /** Where the entries start in the `docker run` command: after `-t` when there is one. */
  function EntriesStart(isTty: bool): nat
  {
    if isTty then 8 else 7
  }

  /** The `docker run` command is its options up to `TF_VER`, the entries, and the image to idle. */
  lemma RunArgsParts(root: string, isTty: bool, tfVersion: string, envs: seq<(string, Value)>, image: string)
    ensures var cmd := RunArgs(root, isTty, tfVersion, envs, image);
            && |cmd| == EntriesStart(isTty) + 2 * |envs| + 3
            && cmd[..EntriesStart(isTty)] == RunHead(root) + (if isTty then ["-t"] else []) + ["-e", "TF_VER=" + tfVersion]
            && cmd[EntriesStart(isTty)..|cmd| - 3] == EnvFlags(envs)
            && cmd[|cmd| - 3..] == [image, "sleep", "inf"]
  {
    var head := RunHead(root) + (if isTty then ["-t"] else []) + ["-e", "TF_VER=" + tfVersion];
    var flags := EnvFlags(envs);
    var tail: seq<string> := [image, "sleep", "inf"];
    var cmd := RunArgs(root, isTty, tfVersion, envs, image);
    EnvFlagsShape(envs);
    assert cmd == head + flags + tail;
    assert (head + flags + tail)[..|head|] == head;
    assert (head + flags + tail)[|head|..|head| + |flags|] == flags;
    assert (head + flags + tail)[|head| + |flags|..] == tail;
  }

  /** The options before the entries: detached, scripts mounted read-only, `-t` on a terminal, `TF_VER`. */
  lemma RunArgsOptions(root: string, isTty: bool, tfVersion: string, envs: seq<(string, Value)>, image: string)
    ensures var cmd := RunArgs(root, isTty, tfVersion, envs, image);
            var p := EntriesStart(isTty);
            && |cmd| > p
            && cmd[..5] == ["docker", "run", "-d", "-v", JoinPath(root, "scripts") + ":/scripts:ro"]
            && (cmd[5] == "-t" <==> isTty)
            && cmd[p - 2] == "-e" && cmd[p - 1] == "TF_VER=" + tfVersion
  {
    var cmd := RunArgs(root, isTty, tfVersion, envs, image);
    var p := EntriesStart(isTty);
    RunArgsParts(root, isTty, tfVersion, envs, image);
    var head := cmd[..p];
    assert cmd[..5] == head[..5];
    assert cmd[5] == head[5] && cmd[p - 2] == head[p - 2] && cmd[p - 1] == head[p - 1];
  }

  /** One `-e`, `K=V` pair per entry, in the entries' order. */
  lemma RunArgsEntries(root: string, isTty: bool, tfVersion: string, envs: seq<(string, Value)>, image: string, i: nat)
    requires i < |envs|
    ensures var cmd := RunArgs(root, isTty, tfVersion, envs, image);
            var p := EntriesStart(isTty);
            && p + 2 * i + 1 < |cmd|
            && cmd[p + 2 * i] == "-e" && cmd[p + 2 * i + 1] == Assignment(envs[i])
  {
    var cmd := RunArgs(root, isTty, tfVersion, envs, image);
    var p := EntriesStart(isTty);
    RunArgsParts(root, isTty, tfVersion, envs, image);
    EnvFlagsShape(envs);
    var flags := EnvFlags(envs);
    assert flags[2 * i] == "-e" && flags[2 * i + 1] == Assignment(envs[i]);
    SliceIndex(cmd, p, |cmd| - 3, 2 * i);
    SliceIndex(cmd, p, |cmd| - 3, 2 * i + 1);
  }

  /**
   * The shape of the `docker run` command: the fixed head, `-t` exactly when
   * stdout is a terminal, `-e TF_VER=<version>` before any entry, then one
   * `-e`, `K=V` pair per entry of `envs` in order, then `<image> sleep inf`.
   */
  lemma RunArgsShape(root: string, isTty: bool, tfVersion: string, envs: seq<(string, Value)>, image: string)
    ensures var cmd := RunArgs(root, isTty, tfVersion, envs, image);
            var p := EntriesStart(isTty);
            && |cmd| == p + 2 * |envs| + 3
            && cmd[..5] == ["docker", "run", "-d", "-v", JoinPath(root, "scripts") + ":/scripts:ro"]
            && (cmd[5] == "-t" <==> isTty)
            && cmd[p - 2] == "-e" && cmd[p - 1] == "TF_VER=" + tfVersion
            && (forall i :: 0 <= i < |envs| ==> cmd[p + 2 * i] == "-e" && cmd[p + 2 * i + 1] == Assignment(envs[i]))
            && cmd[|cmd| - 3..] == [image, "sleep", "inf"]
  {
    RunArgsParts(root, isTty, tfVersion, envs, image);
    RunArgsOptions(root, isTty, tfVersion, envs, image);
    forall i | 0 <= i < |envs|
      ensures RunArgs(root, isTty, tfVersion, envs, image)[EntriesStart(isTty) + 2 * i] == "-e"
      ensures RunArgs(root, isTty, tfVersion, envs, image)[EntriesStart(isTty) + 2 * i + 1] == Assignment(envs[i])
    {
      RunArgsEntries(root, isTty, tfVersion, envs, image, i);
    }
  }

  /** Lines 44-50 of `build`: grow the `docker run` command vector. */
  method RunCommand(root: string, isTty: bool, tfVersion: string, envs: Dict<string, Value>, image: string)
    returns (cmd: seq<string>)
    ensures cmd == RunArgs(root, isTty, tfVersion, envs.items, image)
  {
    cmd := ["docker", "run", "-d", "-v", JoinPath(root, "scripts") + ":/scripts:ro"];
    if isTty {
      cmd := cmd + ["-t"];
    }
    cmd := cmd + ["-e", "TF_VER=" + tfVersion];
    ghost var head := cmd;
    assert head == RunHead(root) + (if isTty then ["-t"] else []) + ["-e", "TF_VER=" + tfVersion];
    var items := envs.items;
    var i := 0;
    while i < |items|
      invariant 0 <= i <= |items|
      invariant cmd == head + EnvFlags(items[..i])
    {
      var pair := ["-e", items[i].0 + "=" + Str(items[i].1)];
      EnvFlagsSnoc(items, i);
      AppendAssoc(head, EnvFlags(items[..i]), pair);
      cmd := cmd + pair;
      i := i + 1;
    }
    assert items[..|items|] == items;
    cmd := cmd + [image, "sleep", "inf"];
  }

  // ---------------------------------------------------------------------------
  // The container's lifecycle

  datatype StepKind = RunStep | ExecStep | CopyStep | StopStep | RemoveStep

  /** One docker call: which step, its command vector, and whether it exited with status 0. */
  datatype Step = Step(kind: StepKind, argv: seq<string>, ok: bool)

  /** How the container stands after the last successful step. */
  datatype Phase = Absent | Running | Built | Harvested | Stopped | Removed

  /** The order in which `build` issues its calls. */
  const Pipeline: seq<StepKind> := [RunStep, ExecStep, CopyStep, StopStep, RemoveStep]

  /** The phase reached after the first `n` steps of `Pipeline` succeed. */
  const Phases: seq<Phase> := [Absent, Running, Built, Harvested, Stopped, Removed]

  /**
   * The outcome of each docker call, which the model takes as input: the
   * output of `docker run` (None when it exits non-zero) and whether each
   * later call exits with status 0.
   */
  datatype Responses = Responses(runOutput: Option<string>, execOk: bool, copyOk: bool, stopOk: bool, removeOk: bool)

  /** How `build` ends: normally, or with `CalledProcessError` raised by the given step. */
  datatype BuildResult = Completed | Raised(at: StepKind)

  /** A log `build` can produce: steps in pipeline order, and only the last may have failed. */
  ghost predicate Legal(log: seq<Step>)
  {
    && |log| <= |Pipeline|
    && (forall i :: 0 <= i < |log| ==> log[i].kind == Pipeline[i])
    && (forall i :: 0 <= i < |log| - 1 ==> log[i].ok)
  }

  /** The number of steps that succeeded. */
  function Succeeded(log: seq<Step>): nat
  {
    if log == [] then 0 else if log[|log| - 1].ok then |log| else |log| - 1
  }

  function PhaseAfter(log: seq<Step>): Phase
    requires |log| <= |Pipeline|
  {
    Phases[Succeeded(log)]
  }

  function Outcome(log: seq<Step>): BuildResult
  {
    if log != [] && !log[|log| - 1].ok then Raised(log[|log| - 1].kind) else Completed
  }

  /** The builder container as `build` manipulates it: its id, its phase, and the docker calls made. */
  class Container {
    var id: string
    var phase: Phase
    var log: seq<Step>

    ghost predicate Valid()
      reads this
    {
      Legal(log) && phase == PhaseAfter(log)
    }

    /** Whether the next call may be of kind `k`: it is next in the pipeline and nothing has failed. */
    ghost predicate CanIssue(k: StepKind)
      reads this
    {
      Valid() && |log| < |Pipeline| && Pipeline[|log|] == k && Outcome(log) == Completed
    }

    constructor ()
      ensures Valid() && phase == Absent && log == []
    {
      id := "";
      phase := Absent;
      log := [];
    }

    /** `docker run`: on success the container runs, and its id is the output stripped. */
    method Launch(argv: seq<string>, output: Option<string>) returns (ok: bool)
      requires CanIssue(RunStep)
      modifies this
      ensures Valid()
      ensures ok == output.Some?
      ensures log == old(log) + [Step(RunStep, argv, ok)]
      ensures phase == if ok then Running else old(phase)
      ensures id == if ok then Strip(output.value) else old(id)
    {
      ok := output.Some?;
      if ok {
        id := Strip(output.value);
        phase := Running;
      }
      log := log + [Step(RunStep, argv, ok)];
    }

    /** Any later docker call: on success the container moves one phase on, on failure it stays. */
    method Call(k: StepKind, argv: seq<string>, ok: bool)
      requires CanIssue(k) && k != RunStep
      modifies this
      ensures Valid()
      ensures log == old(log) + [Step(k, argv, ok)]
      ensures phase == if ok then Phases[|old(log)| + 1] else old(phase)
      ensures id == old(id)
    {
      log := log + [Step(k, argv, ok)];
      if ok {
        phase := Phases[|log|];
      }
    }
  }

  // ---------------------------------------------------------------------------
  // The steps `build` takes

  /** The docker calls `build` makes once the container `id` runs: exec, cp, stop and, on request, rm. */
  function AfterRun(id: string, root: string, removeContainer: bool, r: Responses): seq<Step>
  {
    var exec := Step(ExecStep, ExecArgs(id), r.execOk);
    if !r.execOk then [exec]
    else
      var copy := Step(CopyStep, CopyArgs(id, root), r.copyOk);
      if !r.copyOk then [exec, copy]
      else
        var stop := Step(StopStep, StopArgs(id), r.stopOk);
        if !r.stopOk || !removeContainer then [exec, copy, stop]
        else [exec, copy, stop, Step(RemoveStep, RemoveArgs(id), r.removeOk)]
  }

  /** The docker calls `build` makes, given the run command and each call's outcome. */
  function Trace(runArgs: seq<string>, root: string, removeContainer: bool, r: Responses): seq<Step>
  {
    var run := Step(RunStep, runArgs, r.runOutput.Some?);
    if r.runOutput.None? then [run] else [run] + AfterRun(Strip(r.runOutput.value), root, removeContainer, r)
  }

  /** Lines 41-64 of `build`, with the directory creation and the printing left out. */
  method Build(c: Container, envs: Dict<string, Value>, root: string, tfVersion: string, image: string,
               removeContainer: bool, isTty: bool, r: Responses)
    returns (result: BuildResult)
    requires c.Valid() && c.log == []
    modifies c
    ensures c.Valid()
    ensures c.log == Trace(RunArgs(root, isTty, tfVersion, envs.items, image), root, removeContainer, r)
    ensures result == Outcome(c.log)
  {
    var cmd := RunCommand(root, isTty, tfVersion, envs, image);
    var ok := c.Launch(cmd, r.runOutput);
    if !ok {
      return Raised(RunStep);
    }
    result := BuildInContainer(c, c.id, root, removeContainer, r);
  }

  /** Lines 54-64 of `build`: once the container `id` runs, build in it, copy out, stop and remove it. */
  method BuildInContainer(c: Container, id: string, root: string, removeContainer: bool, r: Responses)
    returns (result: BuildResult)
    requires c.Valid() && |c.log| == 1 && c.log[0].ok
    modifies c
    ensures c.Valid()
    ensures c.log == old(c.log) + AfterRun(id, root, removeContainer, r)
    ensures result == Outcome(c.log)
  {
    ghost var run := c.log[0];
    ghost var exec := Step(ExecStep, ExecArgs(id), r.execOk);
    ghost var copy := Step(CopyStep, CopyArgs(id, root), r.copyOk);
    ghost var stop := Step(StopStep, StopArgs(id), r.stopOk);

    c.Call(ExecStep, ExecArgs(id), r.execOk);
    assert c.log == [run, exec];
    if !r.execOk {
      return Raised(ExecStep);
    }

    c.Call(CopyStep, CopyArgs(id, root), r.copyOk);
    assert c.log == [run, exec, copy];
    if !r.copyOk {
      return Raised(CopyStep);
    }

    c.Call(StopStep, StopArgs(id), r.stopOk);
    assert c.log == [run, exec, copy, stop];
    if !r.stopOk {
      return Raised(StopStep);
    }

    if removeContainer {
      c.Call(RemoveStep, RemoveArgs(id), r.removeOk);
      if !r.removeOk {
        return Raised(RemoveStep);
      }
    }
    return Completed;
  }

  // ---------------------------------------------------------------------------
  // What the trace guarantees

  /** Every trace is a legal log: pipeline order, and nothing after a failure. */
  lemma TraceLegal(runArgs: seq<string>, root: string, removeContainer: bool, r: Responses)
    ensures Legal(Trace(runArgs, root, removeContainer, r))
    ensures |Trace(runArgs, root, removeContainer, r)| >= 1
    ensures Trace(runArgs, root, removeContainer, r)[0] == Step(RunStep, runArgs, r.runOutput.Some?)
  {
  }

  /** A failed call is the last call: every step after a failure is skipped. */
  lemma FailureAborts(runArgs: seq<string>, root: string, removeContainer: bool, r: Responses, i: nat)
    requires i < |Trace(runArgs, root, removeContainer, r)|
    requires !Trace(runArgs, root, removeContainer, r)[i].ok
    ensures i == |Trace(runArgs, root, removeContainer, r)| - 1
    ensures Outcome(Trace(runArgs, root, removeContainer, r)) == Raised(Trace(runArgs, root, removeContainer, r)[i].kind)
  {
  }

  /**
   * `exec` runs only after `run` succeeded, on the id `run` printed, stripped;
   * `cp` runs only after `exec` succeeded, on the same container.
   */
  lemma ExecAndCopyTargets(runArgs: seq<string>, root: string, removeContainer: bool, r: Responses)
    ensures var t := Trace(runArgs, root, removeContainer, r);
            (|t| > 1 <==> r.runOutput.Some?)
            && (|t| > 1 ==> t[1] == Step(ExecStep, ExecArgs(Strip(r.runOutput.value)), r.execOk))
            && (|t| > 2 <==> r.runOutput.Some? && r.execOk)
            && (|t| > 2 ==> t[2] == Step(CopyStep, CopyArgs(Strip(r.runOutput.value), root), r.copyOk))
  {
  }

  /**
   * Teardown: `stop` is issued at most once, and only after a successful `cp`;
   * `rm` only when removal was asked for and `stop` succeeded.
   */
  lemma TeardownOrder(runArgs: seq<string>, root: string, removeContainer: bool, r: Responses, i: nat)
    requires i < |Trace(runArgs, root, removeContainer, r)|
    ensures var t := Trace(runArgs, root, removeContainer, r);
            && (t[i].kind == StopStep ==> i == 3 && t[2].kind == CopyStep && t[2].ok)
            && (t[i].kind == RemoveStep ==> i == 4 && removeContainer && t[3].kind == StopStep && t[3].ok)
  {
  }

  /**
   * `stop` runs exactly when `cp` succeeded, whatever its own outcome, and
   * records it; `rm` runs exactly when removal was asked for and `stop`
   * succeeded, and records its outcome. Both target the stripped id.
   */
  lemma StopAndRemoveTargets(runArgs: seq<string>, root: string, removeContainer: bool, r: Responses)
    ensures var t := Trace(runArgs, root, removeContainer, r);
            (|t| > 3 <==> r.runOutput.Some? && r.execOk && r.copyOk)
            && (|t| > 3 ==> t[3] == Step(StopStep, StopArgs(Strip(r.runOutput.value)), r.stopOk))
            && (|t| > 4 <==> r.runOutput.Some? && r.execOk && r.copyOk && r.stopOk && removeContainer)
            && (|t| > 4 ==> t[4] == Step(RemoveStep, RemoveArgs(Strip(r.runOutput.value)), r.removeOk))
  {
  }

  /** A failing `stop` raises: `build` ends with `CalledProcessError` and `rm` is not issued. */
  lemma StopFailureRaises(runArgs: seq<string>, root: string, removeContainer: bool, r: Responses)
    requires r.runOutput.Some? && r.execOk && r.copyOk && !r.stopOk
    ensures Outcome(Trace(runArgs, root, removeContainer, r)) == Raised(StopStep)
    ensures |Trace(runArgs, root, removeContainer, r)| == 4
  {
  }

  /** A failing `rm` raises: `build` ends with `CalledProcessError` after the container was stopped. */
  lemma RemoveFailureRaises(runArgs: seq<string>, root: string, removeContainer: bool, r: Responses)
    requires r.runOutput.Some? && r.execOk && r.copyOk && r.stopOk && removeContainer && !r.removeOk
    ensures Outcome(Trace(runArgs, root, removeContainer, r)) == Raised(RemoveStep)
    ensures |Trace(runArgs, root, removeContainer, r)| == 5
  {
  }

  /**
   * No guaranteed teardown: when `exec` or `cp` fails, neither `stop` nor `rm`
   * is issued, and the container is left running.
   */
  lemma FailedBuildLeavesContainer(runArgs: seq<string>, root: string, removeContainer: bool, r: Responses)
    requires r.runOutput.Some? && (!r.execOk || !r.copyOk)
    ensures var t := Trace(runArgs, root, removeContainer, r);
            && (forall i :: 0 <= i < |t| ==> t[i].kind != StopStep && t[i].kind != RemoveStep)
            && PhaseAfter(t) in {Running, Built}
  {
    var t := Trace(runArgs, root, removeContainer, r);
    assert |t| <= 3;
  }

  /**
   * A build that completes ran every step once: the outputs were copied, the
   * container was stopped exactly once, and it is removed exactly when asked.
   */
  lemma CompletedBuild(runArgs: seq<string>, root: string, removeContainer: bool, r: Responses)
    requires Outcome(Trace(runArgs, root, removeContainer, r)) == Completed
    ensures var t := Trace(runArgs, root, removeContainer, r);
            && t[..3] == [Step(RunStep, runArgs, true),
                          Step(ExecStep, ExecArgs(Strip(r.runOutput.value)), true),
                          Step(CopyStep, CopyArgs(Strip(r.runOutput.value), root), true)]
            && t[3] == Step(StopStep, StopArgs(Strip(r.runOutput.value)), true)
            && |t| == (if removeContainer then 5 else 4)
            && PhaseAfter(t) == (if removeContainer then Removed else Stopped)
  {
  }
}

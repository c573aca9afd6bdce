/** main.go's worker body for one platform and the loop that dispatches it
    over the catalog, with `log.Fatal` modelled as an aborted run. */
module Pipeline {
  import opened Base
  import opened Naming
  import opened Platforms
  import opened Exec
  import opened Plan

  /** A `log.Fatal` of the worker: the stage it was in, the platform, and why. */
  datatype Fatal = Fatal(stage: Stage, platform: Platform, cause: Failure)

  datatype Outcome =
    | Skipped        // the exclude pattern matched
    | Built          // every command, the build included, exited zero
    | Aborted(fatal: Fatal)

  /** What the worker did for one platform: its outcome and the processes it started. */
  datatype PlatformRun = PlatformRun(outcome: Outcome, started: seq<Invocation>)

  /** The worker body for `p`, given the processes started before it:
      the skip gate, then the plan walked fail-fast. */
  function PlatformSpec(o: Options, h: Host, history: seq<Invocation>, p: Platform): (r: PlatformRun)
    ensures r.outcome.Skipped? <==> SkipDecision(o, h, p) == Some(true)
    ensures SkipDecision(o, h, p) == None ==> r == PlatformRun(Aborted(Fatal(Exclude, p, BadPattern)), [])
    ensures SkipDecision(o, h, p) == Some(true) ==> r.started == []
    ensures SkipDecision(o, h, p) == Some(false) && h.cwd.None? ==>
      r == PlatformRun(Aborted(Fatal(Mount, p, GetwdFailed)), [])
  {
    match SkipDecision(o, h, p)
    case None => PlatformRun(Aborted(Fatal(Exclude, p, BadPattern)), [])
    case Some(skip) =>
      if skip then PlatformRun(Skipped, [])
      else if h.cwd.None? then PlatformRun(Aborted(Fatal(Mount, p, GetwdFailed)), [])
      else
        var steps := PlatformSteps(o, h, p, h.cwd.value);
        var run := FailFast(h.exitsZero, history, Invocations(steps));
        if run.failed then
          var last := |run.started| - 1;
          PlatformRun(Aborted(Fatal(StageAt(o, last), p, ProcessFailed(run.started[last]))), run.started)
        else PlatformRun(Built, run.started)
  }

  /** A platform that is not skipped and whose working directory is known
      starts a prefix of its plan; it is built exactly when the whole plan
      ran; every process it started exited zero except, when it aborted, the
      last one, and the abort names that process and its stage. */
  lemma PlatformRunFacts(o: Options, h: Host, history: seq<Invocation>, p: Platform)
    requires SkipDecision(o, h, p) == Some(false) && h.cwd.Some?
    ensures var r := PlatformSpec(o, h, history, p);
      var steps := PlatformSteps(o, h, p, h.cwd.value);
      && r.started <= Invocations(steps)
      && (r.outcome.Built? || r.outcome.Aborted?)
      && (r.outcome.Built? ==> r.started == Invocations(steps))
      && (forall i :: 0 <= i < |r.started| ==>
            (Succeeds(h.exitsZero, history, Invocations(steps), i) <==> !(r.outcome.Aborted? && i == |r.started| - 1)))
      && (r.outcome.Aborted? ==>
            && r.started != []
            && r.outcome.fatal == Fatal(StageAt(o, |r.started| - 1), p, ProcessFailed(r.started[|r.started| - 1])))
  {
    var invs := Invocations(PlatformSteps(o, h, p, h.cwd.value));
    FailFastPrefix(h.exitsZero, history, invs);
    FailFastOutcomes(h.exitsZero, history, invs);
  }

  /** The first processes of a platform that is not skipped ran, in plan
      order, and all exited zero. */
  ghost predicate RanPlan(o: Options, h: Host, history: seq<Invocation>, p: Platform, started: seq<Invocation>)
  {
    && SkipDecision(o, h, p) == Some(false)
    && h.cwd.Some?
    && started <= Invocations(PlatformSteps(o, h, p, h.cwd.value))
    && FailFast(h.exitsZero, history, started) == Run(started, false)
  }

  /** The commands of one `execInChroot` call, when they are the next
      stretch of a plan after `started`, extend it to a longer prefix. */
  lemma StageBatch(h: Host, p: Platform, steps: seq<Step>, started: seq<Invocation>,
                   stage: Stage, cmds: seq<string>, env: map<string, string>)
    requires started <= Invocations(steps)
    requires Stretch(h, p, steps, |started|, stage, cmds, env)
    ensures started + ChrootInvocations(h, p.debianArch, cmds, env) <= Invocations(steps)
  {
    BatchAt(h, p, steps, |started|, cmds, env, stage);
    PrefixExtend(Invocations(steps), started, ChrootInvocations(h, p.debianArch, cmds, env));
  }

  /** Those commands failing stops the walk over the whole plan inside
      them. */
  lemma StageStops(ok: ExitOracle, history: seq<Invocation>, h: Host, p: Platform, steps: seq<Step>,
                   started: seq<Invocation>, stage: Stage, cmds: seq<string>, env: map<string, string>)
    requires started <= Invocations(steps)
    requires FailFast(ok, history, started) == Run(started, false)
    requires Stretch(h, p, steps, |started|, stage, cmds, env)
    requires FailFast(ok, history + started, ChrootInvocations(h, p.debianArch, cmds, env)).failed
    ensures FailFast(ok, history, Invocations(steps))
         == Run(started + FailFast(ok, history + started, ChrootInvocations(h, p.debianArch, cmds, env)).started, true)
  {
    StageBatch(h, p, steps, started, stage, cmds, env);
    ResumeFailed(ok, history, Invocations(steps), started, ChrootInvocations(h, p.debianArch, cmds, env));
  }

  /** The walk stopping inside the stretch that follows `prior`, at a step
      of `stage`, is the platform aborting at that stage with that process. */
  lemma StageAbort(o: Options, h: Host, history: seq<Invocation>, p: Platform, prior: seq<Invocation>,
                    r: Run, stage: Stage)
    requires SkipDecision(o, h, p) == Some(false) && h.cwd.Some?
    requires var steps := PlatformSteps(o, h, p, h.cwd.value);
      && r.started != []
      && |prior| + |r.started| <= |steps|
      && FailFast(h.exitsZero, history, Invocations(steps)) == Run(prior + r.started, true)
      && StageAt(o, |prior| + |r.started| - 1) == stage
    ensures PlatformSpec(o, h, history, p)
      == PlatformRun(Aborted(Fatal(stage, p, ProcessFailed(r.started[|r.started| - 1]))), prior + r.started)
  {
    assert (prior + r.started)[|prior| + |r.started| - 1] == r.started[|r.started| - 1];
  }

  /** The next stage of a platform's plan ran through without a failure. */
  lemma PlanStageDone(o: Options, h: Host, history: seq<Invocation>, p: Platform, started: seq<Invocation>,
                      stage: Stage, cmds: seq<string>, env: map<string, string>)
    requires RanPlan(o, h, history, p, started)
    requires StretchAt(o, h, p, h.cwd.value, |started|, stage, cmds, env)
    requires !FailFast(h.exitsZero, history + started, ChrootInvocations(h, p.debianArch, cmds, env)).failed
    ensures RanPlan(o, h, history, p, started + ChrootInvocations(h, p.debianArch, cmds, env))
  {
    StageBatch(h, p, PlatformSteps(o, h, p, h.cwd.value), started, stage, cmds, env);
    ResumeDone(h.exitsZero, history, started, ChrootInvocations(h, p.debianArch, cmds, env));
  }

  /** The next stage of a platform's plan failed: the platform is aborted there. */
  lemma PlanStageFailed(o: Options, h: Host, history: seq<Invocation>, p: Platform, started: seq<Invocation>,
                        stage: Stage, cmds: seq<string>, env: map<string, string>)
    requires RanPlan(o, h, history, p, started)
    requires StretchAt(o, h, p, h.cwd.value, |started|, stage, cmds, env)
    requires FailFast(h.exitsZero, history + started, ChrootInvocations(h, p.debianArch, cmds, env)).failed
    ensures var r := FailFast(h.exitsZero, history + started, ChrootInvocations(h, p.debianArch, cmds, env));
      PlatformSpec(o, h, history, p)
        == PlatformRun(Aborted(Fatal(stage, p, ProcessFailed(r.started[|r.started| - 1]))), started + r.started)
  {
    var steps := PlatformSteps(o, h, p, h.cwd.value);
    var r := FailFast(h.exitsZero, history + started, ChrootInvocations(h, p.debianArch, cmds, env));
    StageStops(h.exitsZero, history, h, p, steps, started, stage, cmds, env);
    assert StageAt(o, |started| + |r.started| - 1) == stage;
    StageAbort(o, h, history, p, started, r, stage);
  }

  /** One `execInChroot` call of the worker followed by its `log.Fatalf`
      check: the commands are the next stretch of the plan, all of one stage.
      Without a failure the plan has run through them; with one, the worker's
      whole run is over and aborted at that stage. */
  method RunStage(o: Options, h: Host, history: seq<Invocation>, p: Platform, started: seq<Invocation>,
                  stage: Stage, cmds: seq<string>, env: map<string, string>)
    returns (fatal: Option<Fatal>, now: seq<Invocation>)
    requires RanPlan(o, h, history, p, started)
    requires StretchAt(o, h, p, h.cwd.value, |started|, stage, cmds, env)
    ensures fatal.None? ==> RanPlan(o, h, history, p, now) && |now| == |started| + |cmds|
    ensures fatal.Some? ==> PlatformSpec(o, h, history, p) == PlatformRun(Aborted(fatal.value), now)
  {
    var e, s := ExecInChroot(h, history + started, p.debianArch, cmds, env);
    now := started + s;
    if e.Some? {
      PlanStageFailed(o, h, history, p, started, stage, cmds, env);
      fatal := Some(Fatal(stage, p, e.value));
    } else {
      PlanStageDone(o, h, history, p, started, stage, cmds, env);
      fatal := None;
    }
  }

  /** The goroutine body of main.go for one platform, with the processes
      started before it as `history`. */
  method BuildPlatform(o: Options, h: Host, history: seq<Invocation>, p: Platform)
    returns (outcome: Outcome, started: seq<Invocation>)
    ensures PlatformRun(outcome, started) == PlatformSpec(o, h, history, p)
  {
    var output := JoinPath([o.dist, o.bin + "." + p.goOS + "-"]);
    var archIdentifier := p.debianArch;
    if o.goisms {
      archIdentifier := p.goArch;
    }
    output := output + archIdentifier;

    var skip := false;
    if o.exclude != "" {
      var matched := h.matches(o.exclude, p.goOS + "/" + p.goArch);
      if matched.None? {
        return Aborted(Fatal(Exclude, p, BadPattern)), [];
      }
      skip := matched.value;
    }
    if skip {
      return Skipped, [];
    }

    var err;
    err, started := MountChroot(h, history, p.debianArch);
    if err.Some? {
      MountFailure(o, h, history, p, err, started);
      return Aborted(Fatal(Mount, p, err.value)), started;
    }
    MountSuccess(o, h, history, p, started);

    var fatal: Option<Fatal>;
    fatal, started := InstallHostPackages(o, h, history, p, started);
    if fatal.Some? {
      return Aborted(fatal.value), started;
    }
    fatal, started := InstallPackages(o, h, history, p, started);
    if fatal.Some? {
      return Aborted(fatal.value), started;
    }
    fatal, started := InstallManualPackages(o, h, history, p, started);
    if fatal.Some? {
      return Aborted(fatal.value), started;
    }

    outcome, started := PrepareAndBuild(o, h, history, p, output, started);
  }

  /** The rest of the worker body once the packages are in: the optional
      prepare command, then the build with its overlay. */
  method PrepareAndBuild(o: Options, h: Host, history: seq<Invocation>, p: Platform, output: string,
                         started: seq<Invocation>)
    returns (outcome: Outcome, now: seq<Invocation>)
    requires RanPlan(o, h, history, p, started) && |started| == ManualEnd(o)
    requires output == OutputPath(o, p)
    ensures PlatformRun(outcome, now) == PlatformSpec(o, h, history, p)
  {
    now := started;
    var fatal: Option<Fatal>;
    if o.prepare != "" {
      var env := map["CC" := CC(p.gccArch), "GCCGO" := GCCGo(p.gccArch)];
      var cmds := ["cd " + MountedPwd + " && " + o.prepare];
      assert cmds == [InMountedPwd(o.prepare)] && env == PrepareEnv(p);
      PrepareStretch(o, h, p, h.cwd.value, |now|);
      fatal, now := RunStage(o, h, history, p, now, Prepare, cmds, env);
      if fatal.Some? {
        return Aborted(fatal.value), now;
      }
    }

    var buildLine := "go build -o " + output + " " + o.input;
    if o.extraArgs != "" {
      buildLine := "go build -o " + output + " " + o.extraArgs + " " + o.input;
    }
    if o.plain {
      buildLine := o.input;
    }
    var buildEnv := map[
      "CC" := CC(p.gccArch),
      "GCCGO" := GCCGo(p.gccArch),
      "CGO_ENABLED" := "1",
      "GOOS" := p.goOS,
      "GOARCH" := p.goArch,
      "GOFLAGS" := "-compiler=gccgo " + h.goflags];
    if o.plain {
      buildEnv := buildEnv["DST" := h.quote(output)];
    }
    assert buildLine == BuildLine(o, output);
    assert buildEnv == BuildEnv(o, h, p, output);
    var cmds := ["cd " + MountedPwd + " && " + buildLine];
    assert cmds == [InMountedPwd(BuildLine(o, output))];
    BuildStretch(o, h, p, h.cwd.value, |now|);
    fatal, now := RunStage(o, h, history, p, now, Build, cmds, buildEnv);
    if fatal.Some? {
      return Aborted(fatal.value), now;
    }
    PlanFinished(o, h, history, p, now);
    outcome := Built;
  }

  /** The worker's loop over --hostPackages: `apt install -y <pkg>` for each,
      unqualified, stopping the platform at the first failure. */
  method InstallHostPackages(o: Options, h: Host, history: seq<Invocation>, p: Platform, started: seq<Invocation>)
    returns (fatal: Option<Fatal>, now: seq<Invocation>)
    requires RanPlan(o, h, history, p, started) && |started| == 3
    ensures fatal.None? ==> RanPlan(o, h, history, p, now) && |now| == 3 + |o.hostPackages|
    ensures fatal.Some? ==> PlatformSpec(o, h, history, p) == PlatformRun(Aborted(fatal.value), now)
  {
    now := started;
    for i := 0 to |o.hostPackages|
      invariant RanPlan(o, h, history, p, now)
      invariant |now| == 3 + i
    {
      var cmds := [AptInstall(h.quote(o.hostPackages[i]))];
      HostStretch(o, h, p, h.cwd.value, i, |now|);
      fatal, now := RunStage(o, h, history, p, now, HostPackages, cmds, map[]);
      if fatal.Some? {
        return;
      }
    }
    fatal := None;
  }

  /** The worker's loop over --packages: `apt install -y <pkg>:<debianArch>`
      for each, stopping the platform at the first failure. */
  method InstallPackages(o: Options, h: Host, history: seq<Invocation>, p: Platform, started: seq<Invocation>)
    returns (fatal: Option<Fatal>, now: seq<Invocation>)
    requires RanPlan(o, h, history, p, started) && |started| == 3 + |o.hostPackages|
    ensures fatal.None? ==> RanPlan(o, h, history, p, now) && |now| == ManualStart(o)
    ensures fatal.Some? ==> PlatformSpec(o, h, history, p) == PlatformRun(Aborted(fatal.value), now)
  {
    now := started;
    for i := 0 to |o.packages|
      invariant RanPlan(o, h, history, p, now)
      invariant |now| == 3 + |o.hostPackages| + i
    {
      var pkg := PkgNameForArch(o.packages[i], p.debianArch);
      var cmds := [AptInstall(h.quote(pkg))];
      PackageStretch(o, h, p, h.cwd.value, i, |now|);
      fatal, now := RunStage(o, h, history, p, now, Packages, cmds, map[]);
      if fatal.Some? {
        return;
      }
    }
    fatal := None;
  }

  /** The worker's loop over --manualPackages: for each `<pkg>:<debianArch>`,
      make its directory, download into it and force-install from it,
      stopping the platform at the first failure. */
  method InstallManualPackages(o: Options, h: Host, history: seq<Invocation>, p: Platform, started: seq<Invocation>)
    returns (fatal: Option<Fatal>, now: seq<Invocation>)
    requires RanPlan(o, h, history, p, started) && |started| == ManualStart(o)
    ensures fatal.None? ==> RanPlan(o, h, history, p, now) && |now| == ManualEnd(o)
    ensures fatal.Some? ==> PlatformSpec(o, h, history, p) == PlatformRun(Aborted(fatal.value), now)
  {
    now := started;
    for i := 0 to |o.manualPackages|
      invariant RanPlan(o, h, history, p, now)
      invariant |now| == ManualStart(o) + 3 * i
    {
      var pkg := PkgNameForArch(o.manualPackages[i], p.debianArch);
      var cmds := ManualScripts(h.quote(pkg));
      ManualStretch(o, h, p, h.cwd.value, i, |now|);
      fatal, now := RunStage(o, h, history, p, now, ManualPackages, cmds, map[]);
      if fatal.Some? {
        return;
      }
    }
    fatal := None;
  }

  /** `mountChroot` failing aborts the platform at the mount stage. */
  lemma MountFailure(o: Options, h: Host, history: seq<Invocation>, p: Platform,
                     err: Option<Failure>, started: seq<Invocation>)
    requires SkipDecision(o, h, p) == Some(false)
    requires h.cwd.None? ==> err == Some(GetwdFailed) && started == []
    requires h.cwd.Some? ==>
      var r := FailFast(h.exitsZero, history, MountInvocations(h, p.debianArch, h.cwd.value));
      started == r.started && err == RunError(r)
    requires err.Some?
    ensures PlatformSpec(o, h, history, p) == PlatformRun(Aborted(Fatal(Mount, p, err.value)), started)
  {
    if h.cwd.Some? {
      var steps := PlatformSteps(o, h, p, h.cwd.value);
      var mounts := MountInvocations(h, p.debianArch, h.cwd.value);
      var r := FailFast(h.exitsZero, history, mounts);
      LayoutMount(o, h, p, h.cwd.value);
      assert [] + mounts <= Invocations(steps);
      assert history + [] == history;
      ResumeFailed(h.exitsZero, history, Invocations(steps), [], mounts);
      assert [] + r.started == r.started;
      StageAbort(o, h, history, p, [], r, Mount);
    }
  }

  /** `mountChroot` succeeding means the three mounts, the first planned steps, ran. */
  lemma MountSuccess(o: Options, h: Host, history: seq<Invocation>, p: Platform, started: seq<Invocation>)
    requires SkipDecision(o, h, p) == Some(false)
    requires h.cwd.Some?
    requires var r := FailFast(h.exitsZero, history, MountInvocations(h, p.debianArch, h.cwd.value));
      started == r.started && !r.failed
    ensures RanPlan(o, h, history, p, started) && |started| == 3
  {
    LayoutMount(o, h, p, h.cwd.value);
  }

  /** Having run the whole plan, the platform is built. */
  lemma PlanFinished(o: Options, h: Host, history: seq<Invocation>, p: Platform, started: seq<Invocation>)
    requires RanPlan(o, h, history, p, started)
    requires |started| == |PlatformSteps(o, h, p, h.cwd.value)|
    ensures PlatformSpec(o, h, history, p) == PlatformRun(Built, started)
  {
    var invs := Invocations(PlatformSteps(o, h, p, h.cwd.value));
    assert started == invs[..|started|] == invs;
  }

  // ---------------------------------------------------------------------------
  // A failing step

  /** Step `n` of a platform that is not skipped was started and exited non-zero. */
  ghost predicate FailedAt(o: Options, h: Host, history: seq<Invocation>, p: Platform, n: nat)
  {
    && SkipDecision(o, h, p) == Some(false) && h.cwd.Some?
    && var r := PlatformSpec(o, h, history, p);
      var invs := Invocations(PlatformSteps(o, h, p, h.cwd.value));
      n < |r.started| && n < |invs| && !Succeeds(h.exitsZero, history, invs, n)
  }

  /** A started step that exits non-zero is the platform's last process: it
      aborts at that step's stage with it, and nothing after it is started. */
  lemma FirstFailureIsLast(o: Options, h: Host, history: seq<Invocation>, p: Platform, n: nat)
    requires FailedAt(o, h, history, p, n)
    ensures var r := PlatformSpec(o, h, history, p);
      var invs := Invocations(PlatformSteps(o, h, p, h.cwd.value));
      |r.started| == n + 1 && r.outcome == Aborted(Fatal(StageAt(o, n), p, ProcessFailed(invs[n])))
  {
    FailFastStopsAt(h.exitsZero, history, Invocations(PlatformSteps(o, h, p, h.cwd.value)), n);
  }

  /** The download of a manually installed package (the second of its three
      commands) failing stops the platform right there: its `dpkg -i` is
      never started. */
  lemma DownloadFailureSkipsInstall(o: Options, h: Host, history: seq<Invocation>, p: Platform, i: nat)
    requires i < |o.manualPackages| && FailedAt(o, h, history, p, ManualStart(o) + 3 * i + 1)
    ensures var r := PlatformSpec(o, h, history, p);
      var q := h.quote(PkgNameForArch(o.manualPackages[i], p.debianArch));
      && |r.started| == ManualStart(o) + 3 * i + 2
      && r.outcome == Aborted(Fatal(ManualPackages, p, ProcessFailed(
           ChrootInvocation(h, p.debianArch, ManualScripts(q)[1], map[]))))
  {
    FirstFailureIsLast(o, h, history, p, ManualStart(o) + 3 * i + 1);
    ManualCommand(o, h, p, h.cwd.value, i, ManualStart(o) + 3 * i, 1);
  }

  // ---------------------------------------------------------------------------
  // The dispatch loop

  /** The platforms dispatched so far, in catalog order, and every process started. */
  datatype Report = Report(outcomes: seq<Outcome>, started: seq<Invocation>)

  /** A worker called `log.Fatal`, which ends the program. */
  predicate Halted(outcomes: seq<Outcome>)
  {
    outcomes != [] && outcomes[|outcomes| - 1].Aborted?
  }

  /** The platforms `ps` dispatched one at a time, as with `--jobs 1`: each
      worker starts once the previous one has returned, and none starts after
      one aborted. */
  function RunAll(o: Options, h: Host, ps: seq<Platform>): (r: Report)
    ensures |r.outcomes| <= |ps|
    ensures |r.outcomes| < |ps| ==> Halted(r.outcomes)
    ensures forall i :: 0 <= i < |r.outcomes| - 1 ==> !r.outcomes[i].Aborted?
    ensures forall i :: 0 <= i < |r.outcomes| ==>
      (r.outcomes[i].Skipped? <==> SkipDecision(o, h, ps[i]) == Some(true))
    decreases |ps|
  {
    if ps == [] then Report([], [])
    else
      var prev := RunAll(o, h, ps[..|ps| - 1]);
      if Halted(prev.outcomes) then prev
      else
        var run := PlatformSpec(o, h, prev.started, ps[|ps| - 1]);
        Report(prev.outcomes + [run.outcome], prev.started + run.started)
  }

  /** Before any abort, dispatching one more platform runs its worker after
      everything started so far. */
  lemma RunAllNext(o: Options, h: Host, ps: seq<Platform>, i: nat)
    requires i < |ps| && !Halted(RunAll(o, h, ps[..i]).outcomes)
    ensures var prev := RunAll(o, h, ps[..i]);
      var run := PlatformSpec(o, h, prev.started, ps[i]);
      RunAll(o, h, ps[..i + 1]) == Report(prev.outcomes + [run.outcome], prev.started + run.started)
  {
    assert ps[..i + 1][..i] == ps[..i];
  }

  /** Once a worker has aborted, the platforms after it change nothing. */
  lemma {:induction false} HaltedStays(o: Options, h: Host, ps: seq<Platform>, k: nat)
    requires k <= |ps| && Halted(RunAll(o, h, ps[..k]).outcomes)
    ensures RunAll(o, h, ps) == RunAll(o, h, ps[..k])
    decreases |ps|
  {
    if k < |ps| {
      assert ps[..|ps| - 1][..k] == ps[..k];
      HaltedStays(o, h, ps[..|ps| - 1], k);
    } else {
      assert ps[..k] == ps;
    }
  }

  /** An exclude pattern that does not compile aborts the first platform
      before anything is started, and the program with it. */
  lemma BadPatternAbortsFirst(o: Options, h: Host)
    requires o.exclude != "" && h.matches(o.exclude, Subject(SupportedPlatforms[0])) == None
    ensures RunAll(o, h, SupportedPlatforms) == Report([Aborted(Fatal(Exclude, SupportedPlatforms[0], BadPattern))], [])
  {
    var ps := SupportedPlatforms;
    assert ps[..1][..0] == [];
    assert RunAll(o, h, ps[..1]).outcomes == [Aborted(Fatal(Exclude, ps[0], BadPattern))];
    HaltedStays(o, h, ps, 1);
  }

  /** Every process of the platforms' plans, one platform after another. */
  function Plans(o: Options, h: Host, pwd: string, ps: seq<Platform>): (r: seq<Invocation>)
    decreases |ps|
  {
    if ps == [] then []
    else Plans(o, h, pwd, ps[..|ps| - 1]) + Invocations(PlatformSteps(o, h, ps[|ps| - 1], pwd))
  }

  /** With no exclude pattern, a readable working directory and every process
      exiting zero, every platform is built and the processes started are the
      platforms' plans in catalog order. */
  lemma {:induction false} AllBuilt(o: Options, h: Host, ps: seq<Platform>)
    requires o.exclude == "" && h.cwd.Some?
    requires forall before, inv :: h.exitsZero(before, inv)
    ensures RunAll(o, h, ps) == Report(seq(|ps|, i => Built), Plans(o, h, h.cwd.value, ps))
    decreases |ps|
  {
    if ps != [] {
      var init := ps[..|ps| - 1];
      var p := ps[|ps| - 1];
      AllBuilt(o, h, init);
      BuiltAlone(o, h, RunAll(o, h, init).started, p);
      OneMoreBuilt(|init|);
    }
  }

  lemma OneMoreBuilt(n: nat)
    ensures seq(n, i => Built) + [Built] == seq(n + 1, i => Built)
  {
  }

  /** Under the same conditions one platform runs its whole plan and is built. */
  lemma BuiltAlone(o: Options, h: Host, history: seq<Invocation>, p: Platform)
    requires o.exclude == "" && h.cwd.Some?
    requires forall before, inv :: h.exitsZero(before, inv)
    ensures PlatformSpec(o, h, history, p) == PlatformRun(Built, Invocations(PlatformSteps(o, h, p, h.cwd.value)))
  {
    FailFastAllSucceed(h.exitsZero, history, Invocations(PlatformSteps(o, h, p, h.cwd.value)));
  }

  /** main's dispatch loop over the catalog with `--jobs 1`: each worker body
      runs to its end before the next platform is taken. */
  method BuildAll(o: Options, h: Host) returns (outcomes: seq<Outcome>, started: seq<Invocation>)
    ensures Report(outcomes, started) == RunAll(o, h, SupportedPlatforms)
  {
    outcomes, started := [], [];
    var i := 0;
    while i < |SupportedPlatforms|
      invariant i <= |SupportedPlatforms|
      invariant Report(outcomes, started) == RunAll(o, h, SupportedPlatforms[..i])
      invariant !Halted(outcomes)
    {
      var platform := SupportedPlatforms[i];
      var outcome, s := BuildPlatform(o, h, started, platform);
      RunAllNext(o, h, SupportedPlatforms, i);
      outcomes, started := outcomes + [outcome], started + s;
      i := i + 1;
      if outcome.Aborted? {
        HaltedStays(o, h, SupportedPlatforms, i);
        return;
      }
    }
    assert SupportedPlatforms[..i] == SupportedPlatforms;
  }
}

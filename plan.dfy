/** The per-platform build plan of main.go's worker body: output path, skip
    decision, the shell scripts run in the chroot with their environment
    overlays, and the order in which they are issued. */
module Plan {
  import opened Base
  import opened Naming
  import opened Platforms
  import opened Exec
  import opened Shell

  /** The run options main.go takes from its flags and its positional argument. */
  datatype Options = Options(
    bin: string,                  // --bin
    dist: string,                 // --dist
    exclude: string,              // --exclude (regex, "" = none)
    extraArgs: string,            // --extra-args
    goisms: bool,                 // --goisms
    plain: bool,                  // --plain
    prepare: string,              // --prepare ("" = none)
    hostPackages: seq<string>,    // --hostPackages
    packages: seq<string>,        // --packages
    manualPackages: seq<string>,  // --manualPackages
    input: string)                // the positional INPUT

  /** Which part of the worker body a step belongs to; a fatal error names it. */
  datatype Stage = Exclude | Mount | HostPackages | Packages | ManualPackages | Prepare | Build

  /** One process the worker starts for a platform, tagged with its stage. */
  datatype Step = Step(stage: Stage, inv: Invocation)

  // ---------------------------------------------------------------------------
  // Output path

  /** Architecture name used in file names: Debian's by default, Go's with --goisms. */
  function ArchIdentifier(o: Options, p: Platform): string
  {
    if o.goisms then p.goArch else p.debianArch
  }

  /** `output`: `<dist>/<bin>.<goOS>-<id>` (no directory part when --dist is
      empty), with `id` the Debian architecture unless --goisms. */
  function OutputPath(o: Options, p: Platform): (r: string)
    ensures r ==
      (if o.dist == "" then "" else o.dist + "/") + o.bin + "." + p.goOS + "-"
      + (if o.goisms then p.goArch else p.debianArch)
  {
    JoinPathPair(o.dist, o.bin + "." + p.goOS + "-");
    JoinPath([o.dist, o.bin + "." + p.goOS + "-"]) + ArchIdentifier(o, p)
  }

  /** With the default naming every catalog entry gets its own output file. */
  lemma DefaultOutputPathsDistinct(o: Options)
    requires !o.goisms
    ensures forall i, j :: 0 <= i < j < |SupportedPlatforms| ==>
      OutputPath(o, SupportedPlatforms[i]) != OutputPath(o, SupportedPlatforms[j])
  {
    DebianArchesDistinct();
    CatalogLinux();
    forall i, j | 0 <= i < j < |SupportedPlatforms|
      ensures OutputPath(o, SupportedPlatforms[i]) != OutputPath(o, SupportedPlatforms[j])
    {
      var p, q := SupportedPlatforms[i], SupportedPlatforms[j];
      var pre := JoinPath([o.dist, o.bin + "." + p.goOS + "-"]);
      assert p.goOS == q.goOS;
      PrefixCancel(pre, p.debianArch, q.debianArch);
    }
  }

  /** With --goisms the armel and armhf entries write the same output file. */
  lemma GoismsOutputPathsCollide(o: Options)
    requires o.goisms
    ensures OutputPath(o, SupportedPlatforms[7]) == OutputPath(o, SupportedPlatforms[8])
    ensures SupportedPlatforms[7] != SupportedPlatforms[8]
  {
  }

  /** With `--dist out --bin mybin`, a Linux entry writes `out/mybin.linux-<id>`. */
  lemma OutputPathInOut(o: Options, p: Platform)
    requires o.dist == "out" && o.bin == "mybin" && p.goOS == "linux"
    ensures OutputPath(o, p) == "out/mybin.linux-" + ArchIdentifier(o, p)
  {
    assert "out" + "/" + "mybin" + "." + "linux" + "-" == "out/mybin.linux-";
  }

  /** The amd64 entry writes `out/mybin.linux-amd64` under both conventions. */
  lemma OutputPathAmd64(o: Options)
    requires o.dist == "out" && o.bin == "mybin"
    ensures OutputPath(o, SupportedPlatforms[Amd64Index]) == "out/mybin.linux-amd64"
  {
    OutputPathInOut(o, SupportedPlatforms[Amd64Index]);
    assert "out/mybin.linux-" + "amd64" == "out/mybin.linux-amd64";
  }

  /** The armhf entry writes `out/mybin.linux-armhf`, or `out/mybin.linux-arm` with --goisms. */
  lemma OutputPathArmhf(o: Options)
    requires o.dist == "out" && o.bin == "mybin"
    ensures !o.goisms ==> OutputPath(o, SupportedPlatforms[8]) == "out/mybin.linux-armhf"
    ensures o.goisms ==> OutputPath(o, SupportedPlatforms[8]) == "out/mybin.linux-arm"
  {
    OutputPathInOut(o, SupportedPlatforms[8]);
    assert "out/mybin.linux-" + "armhf" == "out/mybin.linux-armhf";
    assert "out/mybin.linux-" + "arm" == "out/mybin.linux-arm";
  }

  // ---------------------------------------------------------------------------
  // Skip decision

  /** The string the exclude regex is tested against. */
  function Subject(p: Platform): string
  {
    p.goOS + "/" + p.goArch
  }

  /** `skip`: false without a pattern, otherwise the regex match on
      `<goOS>/<goArch>`; None when the pattern does not compile. */
  function SkipDecision(o: Options, h: Host, p: Platform): (r: Option<bool>)
    ensures o.exclude == "" ==> r == Some(false)
    ensures r.None? ==> o.exclude != "" && h.matches(o.exclude, Subject(p)).None?
  {
    if o.exclude != "" then h.matches(o.exclude, Subject(p)) else Some(false)
  }

  /** The decision depends on the platform only through its Go OS and architecture. */
  lemma SkipDecisionFacts(o: Options, h: Host, p: Platform, q: Platform)
    ensures p.goOS == q.goOS && p.goArch == q.goArch ==> SkipDecision(o, h, p) == SkipDecision(o, h, q)
  {
  }

  /** A pattern that does not compile fails for every platform alike. */
  lemma BadPatternEverywhere(o: Options, h: Host, p: Platform, q: Platform)
    requires ValidHost(h) && SkipDecision(o, h, p).None?
    ensures SkipDecision(o, h, q).None?
  {
  }

  /** `pat` occurs in `s` at position `k`. */
  predicate OccursAt(s: string, pat: string, k: nat)
  {
    k + |pat| <= |s| && s[k..k + |pat|] == pat
  }

  /** `pat` occurs somewhere in `s`. This is how `regexp.MatchString`
      answers for a pattern without metacharacters: the match is not anchored. */
  ghost predicate Contains(s: string, pat: string)
  {
    exists k: nat :: OccursAt(s, pat, k)
  }

  /** For `g` without '/', `linux/<a>` occurs in `linux/<g>` exactly when
      `a` is a prefix of `g`: the only '/' of the subject pins the position. */
  lemma LinuxSubjectContains(g: string, a: string)
    requires forall k :: 0 <= k < |g| ==> g[k] != '/'
    ensures Contains("linux/" + g, "linux/" + a) <==> a <= g
  {
    var s, pat := "linux/" + g, "linux/" + a;
    if a <= g {
      assert s[0..|pat|] == pat;
      assert OccursAt(s, pat, 0);
    }
    if Contains(s, pat) {
      var k: nat :| OccursAt(s, pat, k);
      assert s[k..k + |pat|][5] == pat[5] == '/';
      assert k == 0;
      assert s[6..|pat|] == g[..|a|];
      assert pat[6..] == a;
    }
  }

  /** Entry `i`'s subject is `linux/<goArch>`, so `linux/<a>` occurs in it
      exactly when `a` is a prefix of its Go architecture. */
  lemma CatalogSubjectContains(i: nat, a: string)
    requires i < |SupportedPlatforms|
    ensures Contains(Subject(SupportedPlatforms[i]), "linux/" + a) <==> a <= SupportedPlatforms[i].goArch
  {
    CatalogLinux();
    GoArchesWithoutSlash();
    var p := SupportedPlatforms[i];
    assert Subject(p) == "linux/" + p.goArch;
    LinuxSubjectContains(p.goArch, a);
  }

  /** A literal pattern `linux/<a>`, matched anywhere in the subject, skips
      exactly the entries whose Go architecture starts with `a`. */
  lemma PrefixExclude(o: Options, h: Host, a: string)
    requires o.exclude == "linux/" + a
    requires forall i :: 0 <= i < |SupportedPlatforms| ==>
      h.matches(o.exclude, Subject(SupportedPlatforms[i])) == Some(Contains(Subject(SupportedPlatforms[i]), o.exclude))
    ensures forall i :: 0 <= i < |SupportedPlatforms| ==>
      (SkipDecision(o, h, SupportedPlatforms[i]) == Some(true) <==> a <= SupportedPlatforms[i].goArch)
  {
    forall i | 0 <= i < |SupportedPlatforms|
      ensures SkipDecision(o, h, SupportedPlatforms[i]) == Some(true) <==> a <= SupportedPlatforms[i].goArch
    {
      CatalogSubjectContains(i, a);
    }
  }

  /** With an unanchored literal match, "linux/amd64" skips the amd64 entry
      only, and "linux/arm" skips arm64 as well as armel and armhf. */
  lemma LiteralExcludes(o: Options, h: Host)
    requires o.exclude == "linux/amd64" || o.exclude == "linux/arm"
    requires forall i :: 0 <= i < |SupportedPlatforms| ==>
      h.matches(o.exclude, Subject(SupportedPlatforms[i])) == Some(Contains(Subject(SupportedPlatforms[i]), o.exclude))
    ensures o.exclude == "linux/amd64" ==> forall i :: 0 <= i < |SupportedPlatforms| ==>
      (SkipDecision(o, h, SupportedPlatforms[i]) == Some(true) <==> i == Amd64Index)
    ensures o.exclude == "linux/arm" ==> forall i :: 0 <= i < |SupportedPlatforms| ==>
      (SkipDecision(o, h, SupportedPlatforms[i]) == Some(true) <==> 6 <= i <= 8)
  {
    if o.exclude == "linux/amd64" {
      assert o.exclude == "linux/" + "amd64";
      PrefixExclude(o, h, "amd64");
      Amd64Prefix();
    } else {
      assert o.exclude == "linux/" + "arm";
      PrefixExclude(o, h, "arm");
      ArmPrefix();
    }
  }

  /** The exclude example of the usage text, `(linux/alpha|linux/ppc64el)`,
      as written: the second branch names the Debian architecture, which no
      `goOS/goArch` subject contains, so only alpha is skipped and the
      ppc64el entry is still built. */
  lemma UsageExampleSkipsAlphaOnly(o: Options, h: Host)
    requires o.exclude == "(linux/alpha|linux/ppc64el)"
    requires forall i :: 0 <= i < |SupportedPlatforms| ==>
      h.matches(o.exclude, Subject(SupportedPlatforms[i]))
        == Some(Contains(Subject(SupportedPlatforms[i]), "linux/alpha")
                || Contains(Subject(SupportedPlatforms[i]), "linux/ppc64el"))
    ensures forall i :: 0 <= i < |SupportedPlatforms| ==>
      (SkipDecision(o, h, SupportedPlatforms[i]) == Some(true) <==> i == 0)
    ensures SupportedPlatforms[12].debianArch == "ppc64el" && SkipDecision(o, h, SupportedPlatforms[12]) == Some(false)
  {
    AlphaPrefix();
    Ppc64lePrefixes();
    assert "linux/alpha" == "linux/" + "alpha" && "linux/ppc64el" == "linux/" + "ppc64el";
    forall i | 0 <= i < |SupportedPlatforms|
      ensures SkipDecision(o, h, SupportedPlatforms[i]) == Some(true) <==> i == 0
    {
      CatalogSubjectContains(i, "alpha");
      CatalogSubjectContains(i, "ppc64el");
    }
  }

  /** The same example with Go's name for the second target,
      `(linux/alpha|linux/ppc64le)`, skips exactly alpha and ppc64el. */
  lemma CorrectedUsageExampleSkips(o: Options, h: Host)
    requires o.exclude == "(linux/alpha|linux/ppc64le)"
    requires forall i :: 0 <= i < |SupportedPlatforms| ==>
      h.matches(o.exclude, Subject(SupportedPlatforms[i]))
        == Some(Contains(Subject(SupportedPlatforms[i]), "linux/alpha")
                || Contains(Subject(SupportedPlatforms[i]), "linux/ppc64le"))
    ensures forall i :: 0 <= i < |SupportedPlatforms| ==>
      (SkipDecision(o, h, SupportedPlatforms[i]) == Some(true) <==> i == 0 || i == 12)
    ensures SupportedPlatforms[12].debianArch == "ppc64el"
  {
    AlphaPrefix();
    Ppc64lePrefixes();
    assert "linux/alpha" == "linux/" + "alpha" && "linux/ppc64le" == "linux/" + "ppc64le";
    forall i | 0 <= i < |SupportedPlatforms|
      ensures SkipDecision(o, h, SupportedPlatforms[i]) == Some(true) <==> i == 0 || i == 12
    {
      CatalogSubjectContains(i, "alpha");
      CatalogSubjectContains(i, "ppc64le");
    }
  }

  // ---------------------------------------------------------------------------
  // Scripts and environment overlays

  /** The install command for an already quoted package name. */
  function AptInstall(quotedPkg: string): string
  {
    "apt install -y " + quotedPkg
  }

  /** The shell hands `apt` the words `install -y` and the quoted package name. */
  lemma AptInstallWords(q: string)
    ensures Words(AptInstall(q)) == ["apt", "install", "-y"] + Words(q)
  {
    assert "apt" + " " + "install" + " " + "-y" + " " == "apt install -y ";
    ThreeWords("apt", "install", "-y", q);
  }

  /** The three commands of a manual install: make the download directory,
      download the package into it, force-install whatever was downloaded. */
  function ManualScripts(quotedPkg: string): seq<string>
  {
    var dir := "/tmp/bagccgop-packages/" + quotedPkg;
    [ "mkdir -p " + dir,
      "cd " + dir + " && apt download " + quotedPkg,
      "dpkg -i --force-all " + dir + "/*.deb" ]
  }

  /** How the shell reads the three manual-install commands: all three work
      in the same directory named after the quoted package, the second
      downloads that package into it and the third installs what is there. */
  lemma ManualScriptWords(q: string)
    ensures |ManualScripts(q)| == 3
    ensures var r, dir := ManualScripts(q), "/tmp/bagccgop-packages/" + q;
      && Words(r[0]) == ["mkdir", "-p"] + Words(dir)
      && Words(r[1]) == ["cd"] + Words(dir) + ["&&", "apt", "download"] + Words(q)
      && Words(r[2]) == ["dpkg", "-i", "--force-all"] + Words(dir + "/*.deb")
  {
    var dir := "/tmp/bagccgop-packages/" + q;
    MkdirLineWords(dir);
    DownloadLineWords(dir, q);
    DpkgLineWords(dir + "/*.deb");
    assert "dpkg -i --force-all " + dir + "/*.deb" == "dpkg -i --force-all " + (dir + "/*.deb");
  }

  /** A command run from the mounted working directory. */
  function InMountedPwd(line: string): string
  {
    "cd " + MountedPwd + " && " + line
  }

  /** `buildLine`: `go build -o <output> [<extra>] <input>`, or the input
      verbatim in plain mode. */
  function BuildLine(o: Options, output: string): (r: string)
    ensures o.plain ==> r == o.input
  {
    var line :=
      if o.extraArgs != "" then "go build -o " + output + " " + o.extraArgs + " " + o.input
      else "go build -o " + output + " " + o.input;
    if o.plain then o.input else line
  }

  /** The overlay of the prepare command: the two cross compilers only. */
  function PrepareEnv(p: Platform): (r: map<string, string>)
    ensures r.Keys == {"CC", "GCCGO"}
    ensures r["CC"] == p.gccArch + "-gcc" && r["GCCGO"] == p.gccArch + "-gccgo"
  {
    map["CC" := CC(p.gccArch), "GCCGO" := GCCGo(p.gccArch)]
  }

  /** `buildEnv`: compilers, cgo, target, gccgo backend prepended to the
      inherited GOFLAGS, and DST (the quoted output path) in plain mode. */
  function BuildEnv(o: Options, h: Host, p: Platform, output: string): (r: map<string, string>)
    ensures r.Keys == PrepareEnv(p).Keys + {"CGO_ENABLED", "GOOS", "GOARCH", "GOFLAGS"}
                      + (if o.plain then {"DST"} else {})
    ensures forall k :: k in PrepareEnv(p) ==> r[k] == PrepareEnv(p)[k]
    ensures r["CGO_ENABLED"] == "1" && r["GOOS"] == p.goOS && r["GOARCH"] == p.goArch
    ensures r["GOFLAGS"] == "-compiler=gccgo " + h.goflags
    ensures "DST" in r <==> o.plain
    ensures o.plain ==> r["DST"] == h.quote(output)
  {
    var env := map[
      "CC" := CC(p.gccArch),
      "GCCGO" := GCCGo(p.gccArch),
      "CGO_ENABLED" := "1",
      "GOOS" := p.goOS,
      "GOARCH" := p.goArch,
      "GOFLAGS" := "-compiler=gccgo " + h.goflags];
    if o.plain then env["DST" := h.quote(output)] else env
  }

  // ---------------------------------------------------------------------------
  // Steps

  function ChrootStep(h: Host, p: Platform, stage: Stage, script: string, env: map<string, string>): Step
  {
    Step(stage, ChrootInvocation(h, p.debianArch, script, env))
  }

  /** Index of the first target-package step, after the mounts and the host packages. */
  function PackagesStart(o: Options): nat
  {
    3 + |o.hostPackages|
  }

  /** Index of the first manual-install step. */
  function ManualStart(o: Options): nat
  {
    PackagesStart(o) + |o.packages|
  }

  /** Index of the step after the manual installs (the prepare or the build step). */
  function ManualEnd(o: Options): nat
  {
    ManualStart(o) + 3 * |o.manualPackages|
  }

  /** How many processes a platform starts when nothing fails: three mounts,
      one per host package, one per target package, three per manual package,
      the prepare command when one is given, and the build. */
  function PlanSize(o: Options): nat
  {
    ManualEnd(o) + (if o.prepare == "" then 0 else 1) + 1
  }

  /** The stage of the process at position `i` of the plan. */
  function StageAt(o: Options, i: nat): Stage
  {
    if i < 3 then Mount
    else if i < PackagesStart(o) then HostPackages
    else if i < ManualStart(o) then Packages
    else if i < ManualEnd(o) then ManualPackages
    else if i == ManualEnd(o) && o.prepare != "" then Prepare
    else Build
  }

  /** The process at position `i` of the plan: the mounts, then one chroot
      command per host package and per package, three per manually
      installed package, the prepare command and the build. */
  function InvocationAt(o: Options, h: Host, p: Platform, pwd: string, i: nat): Invocation
  {
    match StageAt(o, i)
    case Mount => MountInvocations(h, p.debianArch, pwd)[i]
    case HostPackages =>
      ChrootInvocation(h, p.debianArch, AptInstall(h.quote(o.hostPackages[i - 3])), map[])
    case Packages =>
      ChrootInvocation(h, p.debianArch,
        AptInstall(h.quote(PkgNameForArch(o.packages[i - PackagesStart(o)], p.debianArch))), map[])
    case ManualPackages => ManualSteps(h, p, o.manualPackages)[i - ManualStart(o)].inv
    case Prepare => ChrootInvocation(h, p.debianArch, InMountedPwd(o.prepare), PrepareEnv(p))
    case _ => BuildStep(o, h, p).inv
  }

  /** Position `i` of the plan, tagged with its stage. */
  function StepAt(o: Options, h: Host, p: Platform, pwd: string, i: nat): Step
  {
    Step(StageAt(o, i), InvocationAt(o, h, p, pwd, i))
  }

  /** The build command. */
  function BuildStep(o: Options, h: Host, p: Platform): Step
  {
    var output := OutputPath(o, p);
    ChrootStep(h, p, Build, InMountedPwd(BuildLine(o, output)), BuildEnv(o, h, p, output))
  }

  /** Every process a non-skipped platform starts when nothing fails, in order. */
  function PlatformSteps(o: Options, h: Host, p: Platform, pwd: string): (r: seq<Step>)
    ensures |r| == PlanSize(o)
  {
    seq(PlanSize(o), i requires 0 <= i < PlanSize(o) => StepAt(o, h, p, pwd, i))
  }

  function Invocations(steps: seq<Step>): (r: seq<Invocation>)
    ensures |r| == |steps|
    ensures forall i :: 0 <= i < |steps| ==> r[i] == steps[i].inv
  {
    seq(|steps|, i requires 0 <= i < |steps| => steps[i].inv)
  }

  // ---------------------------------------------------------------------------
  // The plan stage by stage

  function MountSteps(h: Host, p: Platform, pwd: string): (r: seq<Step>)
    ensures |r| == 3
  {
    var invs := MountInvocations(h, p.debianArch, pwd);
    [Step(Mount, invs[0]), Step(Mount, invs[1]), Step(Mount, invs[2])]
  }

  /** One unqualified install per host package. */
  function HostSteps(h: Host, p: Platform, pkgs: seq<string>): (r: seq<Step>)
    ensures |r| == |pkgs|
  {
    seq(|pkgs|, i requires 0 <= i < |pkgs| =>
      ChrootStep(h, p, HostPackages, AptInstall(h.quote(pkgs[i])), map[]))
  }

  /** One `pkg:debianArch` install per target package. */
  function PackageSteps(h: Host, p: Platform, pkgs: seq<string>): (r: seq<Step>)
    ensures |r| == |pkgs|
  {
    seq(|pkgs|, i requires 0 <= i < |pkgs| =>
      ChrootStep(h, p, Packages, AptInstall(h.quote(PkgNameForArch(pkgs[i], p.debianArch))), map[]))
  }

  /** Three commands per manual package, package after package. */
  function ManualSteps(h: Host, p: Platform, pkgs: seq<string>): (r: seq<Step>)
    ensures |r| == 3 * |pkgs|
    ensures forall j :: 0 <= j < |r| ==> r[j].stage == ManualPackages
    decreases |pkgs|
  {
    if pkgs == [] then []
    else
      var cmds := ManualScripts(h.quote(PkgNameForArch(pkgs[0], p.debianArch)));
      [ ChrootStep(h, p, ManualPackages, cmds[0], map[]),
        ChrootStep(h, p, ManualPackages, cmds[1], map[]),
        ChrootStep(h, p, ManualPackages, cmds[2], map[]) ]
      + ManualSteps(h, p, pkgs[1..])
  }

  /** The prepare command, when one is given. */
  function PrepareSteps(o: Options, h: Host, p: Platform): (r: seq<Step>)
    ensures |r| == if o.prepare == "" then 0 else 1
  {
    if o.prepare == "" then []
    else [ChrootStep(h, p, Prepare, InMountedPwd(o.prepare), PrepareEnv(p))]
  }

  /** Positions of the plan, read stage by stage, are the stages' own commands. */
  lemma {:induction false} ManualStepsAt(h: Host, p: Platform, pkgs: seq<string>, i: nat, k: nat)
    requires i < |pkgs| && k < 3
    ensures 3 * i + k < |ManualSteps(h, p, pkgs)|
    ensures ManualSteps(h, p, pkgs)[3 * i + k]
      == ChrootStep(h, p, ManualPackages, ManualScripts(h.quote(PkgNameForArch(pkgs[i], p.debianArch)))[k], map[])
    decreases i
  {
    if i > 0 {
      ManualStepsAt(h, p, pkgs[1..], i - 1, k);
      assert 3 * i + k == 3 + (3 * (i - 1) + k);
      assert pkgs[1..][i - 1] == pkgs[i];
    }
  }

  /** A sequence cut at five points into six slices is their concatenation. */
  lemma SixSlices(s: seq<Step>, n1: nat, n2: nat, n3: nat, n4: nat, n5: nat,
                  a: seq<Step>, b: seq<Step>, c: seq<Step>, d: seq<Step>, e: seq<Step>, f: seq<Step>)
    requires n1 <= n2 <= n3 <= n4 <= n5 <= |s|
    requires s[..n1] == a && s[n1..n2] == b && s[n2..n3] == c
    requires s[n3..n4] == d && s[n4..n5] == e && s[n5..] == f
    ensures s == a + b + c + d + e + f
  {
    assert s[..n2] == s[..n1] + s[n1..n2];
    assert s[..n3] == s[..n2] + s[n2..n3];
    assert s[..n4] == s[..n3] + s[n3..n4];
    assert s[..n5] == s[..n4] + s[n4..n5];
    assert s == s[..n5] + s[n5..];
  }

  /** The plan opens with the three bind mounts. */
  lemma MountSlice(o: Options, h: Host, p: Platform, pwd: string)
    ensures PlatformSteps(o, h, p, pwd)[..3] == MountSteps(h, p, pwd)
  {
    var s := PlatformSteps(o, h, p, pwd);
    assert s[0] == StepAt(o, h, p, pwd, 0);
    assert s[1] == StepAt(o, h, p, pwd, 1);
    assert s[2] == StepAt(o, h, p, pwd, 2);
  }

  /** It closes with the prepare command, when one is given, ... */
  lemma PrepareSlice(o: Options, h: Host, p: Platform, pwd: string)
    ensures var s := PlatformSteps(o, h, p, pwd);
      s[ManualEnd(o)..|s| - 1] == PrepareSteps(o, h, p)
  {
    if o.prepare != "" {
      var s := PlatformSteps(o, h, p, pwd);
      assert s[ManualEnd(o)] == StepAt(o, h, p, pwd, ManualEnd(o));
    }
  }

  /** ... and the build. */
  lemma BuildSlice(o: Options, h: Host, p: Platform, pwd: string)
    ensures var s := PlatformSteps(o, h, p, pwd);
      s[|s| - 1..] == [BuildStep(o, h, p)]
  {
    var s := PlatformSteps(o, h, p, pwd);
    assert StageAt(o, |s| - 1) == Build;
    assert s[|s| - 1] == StepAt(o, h, p, pwd, |s| - 1);
  }

  /** Positions 3 .. of the plan are the host-package installs. */
  lemma HostSlice(o: Options, h: Host, p: Platform, pwd: string)
    ensures PlatformSteps(o, h, p, pwd)[3..PackagesStart(o)] == HostSteps(h, p, o.hostPackages)
  {
    var s := PlatformSteps(o, h, p, pwd);
    forall j | 0 <= j < |o.hostPackages|
      ensures s[3 + j] == HostSteps(h, p, o.hostPackages)[j]
    {
      assert s[3 + j] == StepAt(o, h, p, pwd, 3 + j);
    }
  }

  /** Then come the target-package installs. */
  lemma PackageSlice(o: Options, h: Host, p: Platform, pwd: string)
    ensures PlatformSteps(o, h, p, pwd)[PackagesStart(o)..ManualStart(o)] == PackageSteps(h, p, o.packages)
  {
    var s := PlatformSteps(o, h, p, pwd);
    forall j | 0 <= j < |o.packages|
      ensures s[PackagesStart(o) + j] == PackageSteps(h, p, o.packages)[j]
    {
      assert s[PackagesStart(o) + j] == StepAt(o, h, p, pwd, PackagesStart(o) + j);
    }
  }

  /** Then the manual installs, three steps per package. */
  lemma ManualSlice(o: Options, h: Host, p: Platform, pwd: string)
    ensures PlatformSteps(o, h, p, pwd)[ManualStart(o)..ManualEnd(o)] == ManualSteps(h, p, o.manualPackages)
  {
    var s := PlatformSteps(o, h, p, pwd);
    forall j | 0 <= j < 3 * |o.manualPackages|
      ensures s[ManualStart(o) + j] == ManualSteps(h, p, o.manualPackages)[j]
    {
      ManualStepAt(o, h, p, pwd, j, ManualStart(o) + j);
    }
  }

  lemma ManualStepAt(o: Options, h: Host, p: Platform, pwd: string, j: nat, i: nat)
    requires j < 3 * |o.manualPackages| && i == ManualStart(o) + j
    ensures i < |PlatformSteps(o, h, p, pwd)| && StageAt(o, i) == ManualPackages
    ensures PlatformSteps(o, h, p, pwd)[i] == ManualSteps(h, p, o.manualPackages)[j]
  {
    assert StageAt(o, i) == ManualPackages;
    assert PlatformSteps(o, h, p, pwd)[i] == StepAt(o, h, p, pwd, i);
  }

  /** The plan is the worker body's stages one after the other: mounts, host
      packages, target packages, manual packages, prepare, build. */
  lemma PlanByStage(o: Options, h: Host, p: Platform, pwd: string)
    ensures PlatformSteps(o, h, p, pwd)
      == MountSteps(h, p, pwd) + HostSteps(h, p, o.hostPackages) + PackageSteps(h, p, o.packages)
         + ManualSteps(h, p, o.manualPackages) + PrepareSteps(o, h, p) + [BuildStep(o, h, p)]
  {
    var s := PlatformSteps(o, h, p, pwd);
    MountSlice(o, h, p, pwd);
    HostSlice(o, h, p, pwd);
    PackageSlice(o, h, p, pwd);
    ManualSlice(o, h, p, pwd);
    PrepareSlice(o, h, p, pwd);
    BuildSlice(o, h, p, pwd);
    SixSlices(s, 3, PackagesStart(o), ManualStart(o), ManualEnd(o), |s| - 1,
              MountSteps(h, p, pwd), HostSteps(h, p, o.hostPackages), PackageSteps(h, p, o.packages),
              ManualSteps(h, p, o.manualPackages), PrepareSteps(o, h, p), [BuildStep(o, h, p)]);
  }

  // ---------------------------------------------------------------------------
  // Where each stage sits in the plan

  /** The first three steps are the bind mounts. */
  lemma LayoutMount(o: Options, h: Host, p: Platform, pwd: string)
    ensures var s := PlatformSteps(o, h, p, pwd);
      && 3 < |s|
      && Invocations(s)[..3] == MountInvocations(h, p.debianArch, pwd)
      && (forall j :: 0 <= j < 3 ==> s[j].stage == Mount)
  {
    var s := PlatformSteps(o, h, p, pwd);
    assert Invocations(s)[..3] == [s[0].inv, s[1].inv, s[2].inv];
  }

  /** The commands of one `execInChroot` call with overlay `env` are the
      steps at positions `n`, `n + 1`, ... of `steps`, all of `stage`. */
  ghost predicate Stretch(h: Host, p: Platform, steps: seq<Step>, n: nat, stage: Stage,
                          cmds: seq<string>, env: map<string, string>)
  {
    && n + |cmds| <= |steps|
    && forall k :: 0 <= k < |cmds| ==> steps[n + k] == ChrootStep(h, p, stage, cmds[k], env)
  }

  /** The same, for the plan of a platform, whose stage map agrees. */
  ghost predicate StretchAt(o: Options, h: Host, p: Platform, pwd: string, n: nat, stage: Stage,
                            cmds: seq<string>, env: map<string, string>)
  {
    && Stretch(h, p, PlatformSteps(o, h, p, pwd), n, stage, cmds, env)
    && forall j :: n <= j < n + |cmds| ==> StageAt(o, j) == stage
  }

  /** The step of host package i: `apt install -y <pkg>`, unqualified. */
  lemma HostStretch(o: Options, h: Host, p: Platform, pwd: string, i: nat, n: nat)
    requires i < |o.hostPackages| && n == 3 + i
    ensures StretchAt(o, h, p, pwd, n, HostPackages, [AptInstall(h.quote(o.hostPackages[i]))], map[])
  {
    assert StageAt(o, n) == HostPackages;
    assert PlatformSteps(o, h, p, pwd)[n] == StepAt(o, h, p, pwd, n);
  }

  /** The step of target package i: `apt install -y <pkg>:<debianArch>`. */
  lemma PackageStretch(o: Options, h: Host, p: Platform, pwd: string, i: nat, n: nat)
    requires i < |o.packages| && n == PackagesStart(o) + i
    ensures StretchAt(o, h, p, pwd, n, Packages,
                      [AptInstall(h.quote(PkgNameForArch(o.packages[i], p.debianArch)))], map[])
  {
    assert StageAt(o, n) == Packages;
    assert PlatformSteps(o, h, p, pwd)[n] == StepAt(o, h, p, pwd, n);
  }

  /** The three steps of manual package i. */
  lemma ManualStretch(o: Options, h: Host, p: Platform, pwd: string, i: nat, n: nat)
    requires i < |o.manualPackages| && n == ManualStart(o) + 3 * i
    ensures StretchAt(o, h, p, pwd, n, ManualPackages,
                      ManualScripts(h.quote(PkgNameForArch(o.manualPackages[i], p.debianArch))), map[])
  {
    var cmds := ManualScripts(h.quote(PkgNameForArch(o.manualPackages[i], p.debianArch)));
    ManualCommand(o, h, p, pwd, i, n, 0);
    ManualCommand(o, h, p, pwd, i, n, 1);
    ManualCommand(o, h, p, pwd, i, n, 2);
    ThreeSteps(h, p, PlatformSteps(o, h, p, pwd), n, ManualPackages, cmds, map[]);
  }

  /** Three consecutive chroot steps make a stretch. */
  lemma ThreeSteps(h: Host, p: Platform, steps: seq<Step>, n: nat, stage: Stage,
                   cmds: seq<string>, env: map<string, string>)
    requires |cmds| == 3 && n + 3 <= |steps|
    requires steps[n + 0] == ChrootStep(h, p, stage, cmds[0], env)
    requires steps[n + 1] == ChrootStep(h, p, stage, cmds[1], env)
    requires steps[n + 2] == ChrootStep(h, p, stage, cmds[2], env)
    ensures Stretch(h, p, steps, n, stage, cmds, env)
  {
  }

  /** Step `k` of the three of manual package `i`, which starts at `n`. */
  lemma ManualCommand(o: Options, h: Host, p: Platform, pwd: string, i: nat, n: nat, k: nat)
    requires i < |o.manualPackages| && n == ManualStart(o) + 3 * i && k < 3
    ensures n + k < |PlatformSteps(o, h, p, pwd)|
    ensures StageAt(o, n + k) == ManualPackages
    ensures PlatformSteps(o, h, p, pwd)[n + k]
      == ChrootStep(h, p, ManualPackages, ManualScripts(h.quote(PkgNameForArch(o.manualPackages[i], p.debianArch)))[k], map[])
  {
    ManualStepAt(o, h, p, pwd, 3 * i + k, n + k);
    ManualStepsAt(h, p, o.manualPackages, i, k);
  }

  /** The prepare command, when one is given, right after the manual installs,
      with the compilers as its overlay. */
  lemma PrepareStretch(o: Options, h: Host, p: Platform, pwd: string, n: nat)
    requires o.prepare != "" && n == ManualEnd(o)
    ensures StretchAt(o, h, p, pwd, n, Prepare, [InMountedPwd(o.prepare)], PrepareEnv(p))
  {
    assert PlatformSteps(o, h, p, pwd)[n] == StepAt(o, h, p, pwd, n);
  }

  /** The build command with the build overlay, the last step of the plan. */
  lemma BuildStretch(o: Options, h: Host, p: Platform, pwd: string, n: nat)
    requires n == ManualEnd(o) + (if o.prepare == "" then 0 else 1)
    ensures n + 1 == |PlatformSteps(o, h, p, pwd)|
    ensures StretchAt(o, h, p, pwd, n, Build, [InMountedPwd(BuildLine(o, OutputPath(o, p)))],
                      BuildEnv(o, h, p, OutputPath(o, p)))
  {
    assert PlatformSteps(o, h, p, pwd)[n] == StepAt(o, h, p, pwd, n);
  }

  /** Each manual package gives three adjacent steps: make the directory,
      download into it, force-install from it, all naming the same quoted
      `pkg:debianArch`. */
  lemma ManualTriplet(o: Options, h: Host, p: Platform, pwd: string, i: nat)
    requires i < |o.manualPackages|
    ensures var s := PlatformSteps(o, h, p, pwd);
      var q := h.quote(PkgNameForArch(o.manualPackages[i], p.debianArch));
      var n, dir := ManualStart(o) + 3 * i, "/tmp/bagccgop-packages/" + q;
      && n + 3 <= |s|
      && s[n] == ChrootStep(h, p, ManualPackages, "mkdir -p " + dir, map[])
      && s[n + 1] == ChrootStep(h, p, ManualPackages, "cd " + dir + " && apt download " + q, map[])
      && s[n + 2] == ChrootStep(h, p, ManualPackages, "dpkg -i --force-all " + dir + "/*.deb", map[])
  {
    var n := ManualStart(o) + 3 * i;
    ManualStretch(o, h, p, pwd, i, n);
    assert n + 3 <= |PlatformSteps(o, h, p, pwd)|;
    var s := PlatformSteps(o, h, p, pwd);
    var q := h.quote(PkgNameForArch(o.manualPackages[i], p.debianArch));
    assert s[n + 0] == ChrootStep(h, p, ManualPackages, ManualScripts(q)[0], map[]);
    assert s[n + 1] == ChrootStep(h, p, ManualPackages, ManualScripts(q)[1], map[]);
    assert s[n + 2] == ChrootStep(h, p, ManualPackages, ManualScripts(q)[2], map[]);
  }

  /** A batch of consecutive steps that all run in the chroot with one overlay
      is exactly what one `execInChroot` call over their scripts starts. */
  lemma BatchAt(h: Host, p: Platform, steps: seq<Step>, n: nat, cmds: seq<string>, env: map<string, string>, stage: Stage)
    requires Stretch(h, p, steps, n, stage, cmds, env)
    ensures Invocations(steps)[n..n + |cmds|] == ChrootInvocations(h, p.debianArch, cmds, env)
    ensures forall j :: n <= j < n + |cmds| ==> steps[j].stage == stage
  {
    forall j | n <= j < n + |cmds|
      ensures steps[j].stage == stage
    {
      assert steps[n + (j - n)] == ChrootStep(h, p, stage, cmds[j - n], env);
    }
  }

  // ---------------------------------------------------------------------------
  // The build line as the shell splits it

  /** Outside plain mode the shell hands `go` the words `build -o`, the
      output path, the extra arguments and the input, in that order (with or
      without extra arguments). */
  lemma BuildLineWords(o: Options, output: string)
    ensures !o.plain ==>
      Words(BuildLine(o, output)) == ["go", "build", "-o"] + Words(output) + Words(o.extraArgs) + Words(o.input)
  {
    if !o.plain {
      var head := "go build -o " + output;
      assert "go" + " " + "build" + " " + "-o" + " " == "go build -o ";
      ThreeWords("go", "build", "-o", output);
      if o.extraArgs != "" {
        WordsAppend(head + " " + o.extraArgs, o.input);
        WordsAppend(head, o.extraArgs);
      } else {
        WordsAppend(head, o.input);
        assert Words(o.extraArgs) == [];
      }
    }
  }

  /** On a host whose map iteration visits each key once, the prepare
      command's `Cmd.Env` is the inherited environment followed by the
      quoted CC and GCCGO names with the platform's compilers, and nothing
      else (`PrepareEffectiveEnv` says which values the process sees). */
  lemma PrepareProcessEnv(o: Options, h: Host, p: Platform)
    requires ValidHost(h)
    ensures var e := ChrootInvocation(h, p.debianArch, InMountedPwd(o.prepare), PrepareEnv(p)).env;
      var cc, gccgo := h.quote("CC") + "=" + (p.gccArch + "-gcc"), h.quote("GCCGO") + "=" + (p.gccArch + "-gccgo");
      && e[..|h.environ|] == h.environ
      && cc in e[|h.environ|..] && gccgo in e[|h.environ|..]
      && (forall i :: |h.environ| <= i < |e| ==> e[i] == cc || e[i] == gccgo)
  {
    var env := PrepareEnv(p);
    assert IsKeyOrder(h.keyOrder(env), env);
    TwoKeyOverlay(h, env, "CC", "GCCGO");
  }

  /** On a host whose map iteration visits each key once, the build
      command's `Cmd.Env` is the inherited environment followed by one entry
      per key of the build overlay: the compilers, `CGO_ENABLED=1`, the
      target, GOFLAGS, and in plain mode DST with the quoted output path
      (`BuildEffectiveEnv` says which values the process sees). */
  lemma BuildProcessEnv(o: Options, h: Host, p: Platform)
    requires ValidHost(h)
    ensures var e, b := BuildStep(o, h, p).inv.env, BuildEnv(o, h, p, OutputPath(o, p));
      && e[..|h.environ|] == h.environ
      && |e| == |h.environ| + |h.keyOrder(b)|
      && (forall k :: k in b ==> h.quote(k) + "=" + b[k] in e[|h.environ|..])
      && (forall i :: |h.environ| <= i < |e| ==> OverlayEntry(h, b, e[i]))
      && h.quote("CGO_ENABLED") + "=" + "1" in e[|h.environ|..]
      && (o.plain ==> h.quote("DST") + "=" + h.quote(OutputPath(o, p)) in e[|h.environ|..])
  {
    var b := BuildEnv(o, h, p, OutputPath(o, p));
    assert IsKeyOrder(h.keyOrder(b), b);
    ProcessEnvLayout(h, b);
    OverlayOnlyKeys(h, b);
  }

  /** On a valid host, the prepare process sees CC and GCCGO with the
      platform's compilers, whatever the inherited environment held for
      them, and every other name as inherited. */
  lemma PrepareEffectiveEnv(o: Options, h: Host, p: Platform)
    requires ValidHost(h)
    ensures var e := ChrootInvocation(h, p.debianArch, InMountedPwd(o.prepare), PrepareEnv(p)).env;
      && Effective(e, "CC") == Some(p.gccArch + "-gcc")
      && Effective(e, "GCCGO") == Some(p.gccArch + "-gccgo")
      && (forall k :: IsName(k) && k != "CC" && k != "GCCGO" ==> Effective(e, k) == Effective(h.environ, k))
  {
    var env := PrepareEnv(p);
    assert ChrootInvocation(h, p.debianArch, InMountedPwd(o.prepare), env).env == ProcessEnvOf(h, env);
    OverlayNames();
    OverlayWinsAt(h, env, "CC");
    OverlayWinsAt(h, env, "GCCGO");
    OverlayKeepsOthers(h, env, {"CC", "GCCGO"});
  }

  /** On a valid host, the build process sees the overlay's compilers,
      `CGO_ENABLED=1`, the platform's GOOS and GOARCH, and GOFLAGS with the
      gccgo backend before the inherited GOFLAGS, whatever the inherited
      environment held for them; DST is the quoted output path in plain
      mode and the inherited DST otherwise; every name that is not a key of
      the overlay is inherited. */
  lemma BuildEffectiveEnv(o: Options, h: Host, p: Platform)
    requires ValidHost(h)
    ensures var e := BuildStep(o, h, p).inv.env;
      && Effective(e, "CC") == Some(p.gccArch + "-gcc")
      && Effective(e, "GCCGO") == Some(p.gccArch + "-gccgo")
      && Effective(e, "CGO_ENABLED") == Some("1")
      && Effective(e, "GOOS") == Some(p.goOS)
      && Effective(e, "GOARCH") == Some(p.goArch)
      && Effective(e, "GOFLAGS") == Some("-compiler=gccgo " + h.goflags)
      && Effective(e, "DST") == (if o.plain then Some(h.quote(OutputPath(o, p))) else Effective(h.environ, "DST"))
      && (forall k :: IsName(k) && k !in BuildEnv(o, h, p, OutputPath(o, p)) ==>
            Effective(e, k) == Effective(h.environ, k))
  {
    var b := BuildEnv(o, h, p, OutputPath(o, p));
    var e := ProcessEnvOf(h, b);
    assert BuildStep(o, h, p).inv.env == e;
    OverlayNames();
    OverlayWinsAt(h, b, "CC");
    OverlayWinsAt(h, b, "GCCGO");
    OverlayWinsAt(h, b, "CGO_ENABLED");
    OverlayWinsAt(h, b, "GOOS");
    OverlayWinsAt(h, b, "GOARCH");
    OverlayWinsAt(h, b, "GOFLAGS");
    OverlayWinsAt(h, b, "DST");
    OverlayKeepsOthers(h, b, b.Keys);
  }

  /** The keys of both overlays are variable names. */
  lemma OverlayNames()
    ensures IsName("CC") && IsName("GCCGO") && IsName("CGO_ENABLED") && IsName("GOOS")
    ensures IsName("GOARCH") && IsName("GOFLAGS") && IsName("DST")
  {
  }

  /** The build step runs `cd data && <buildLine>` in the platform's chroot. */
  lemma BuildStepScript(o: Options, h: Host, p: Platform)
    ensures BuildStep(o, h, p).stage == Build
    ensures BuildStep(o, h, p).inv.args
      == ["/var/lib/bagccgop/" + p.debianArch + "-chroot", "/bin/bash", "-c",
          "cd data && " + BuildLine(o, OutputPath(o, p))]
  {
    var line := BuildLine(o, OutputPath(o, p));
    assert "cd " + MountedPwd + " && " + line == "cd data && " + line;
  }
}

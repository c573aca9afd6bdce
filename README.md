# bagccgop build orchestrator, modelled in Dafny

bagccgop cross-builds a Go program with gccgo for every Debian port that
has a gccgo cross-toolchain. It runs each compilation inside a chroot of
the target architecture. For every entry of its fixed platform catalog,
a worker does the following:

1. computes the output file name;
2. checks the entry against an optional exclude regex;
3. bind-mounts `/dev`, `/proc` and the working directory into
   `/var/lib/bagccgop/<debianArch>-chroot`;
4. installs host packages, architecture-qualified packages and
   "manual" packages (mkdir, `apt download`, `dpkg -i --force-all`);
5. runs an optional prepare command;
6. runs the build command with a compiler environment overlay.

Any failing process ends the whole program through `log.Fatal`.

The model has seven modules, one file each:

- `Base` (`base.dfy`): `Option` and `JoinPath`, which is `path.Join` on components that need no cleaning.
- `Naming` (`naming.dfy`): the chroot location, `pkg:arch` names and the compiler names.
- `Platforms` (`platforms.dfy`): the `Platform` record and the 14-entry catalog, with facts about it.
- `Exec` (`exec.dfy`):
  - the outside world as a `Host` value, with these fields:
    - the working directory;
    - the inherited environment and `GOFLAGS`;
    - shell quoting;
    - map visiting order;
    - regex matching;
    - an exit-status oracle that sees every process started before.
  - `FailFast`, the start-in-order-and-stop-at-the-first-failure walk that both `mountChroot` and `execInChroot` perform;
  - those two functions as methods with loops, proved equal to `FailFast`.
- `Shell` (`shell.dfy`): how `bash -c` splits an unquoted line into words.
- `Plan` (`plan.dfy`):
  - the per-platform plan: output path, skip decision, scripts, environment overlays;
  - `PlatformSteps`, the full ordered list of processes a platform starts when nothing fails, each tagged with its stage.
- `Pipeline` (`pipeline.dfy`):
  - `BuildPlatform`, the goroutine body, written as the source's sequence of loops and proved equal to `PlatformSpec`. `PlatformSpec` is the fail-fast walk over the plan, and `log.Fatal` becomes an `Aborted` outcome naming the stage.
  - `BuildAll`, the dispatch loop with `--jobs 1`, proved equal to `RunAll`.

Facts about main.go that the model makes explicit:

- Output names carry the platform's Debian architecture by default, and the Go architecture only with `--goisms` (`OutputPathAmd64`, `OutputPathArmhf`).
- The plan goes from the mounts straight to the host packages (`PlanByStage`).
- The exclude pattern goes to `regexp.MatchString`, which is not anchored: a pattern matches if it occurs anywhere in `<goOS>/<goArch>`. `linux/arm` therefore skips arm64 as well as armel and armhf (`LiteralExcludes`).
- The output path goes into the `go build -o` line unquoted, while the DST value is quoted. A `--dist` or binary name with a space therefore splits after `-o` (`BuildLineWords`).
- (goOS, goArch) pairs are not unique: armel and armhf are both `linux/arm` (`GoTargetsNotUnique`). With `--goisms`, both write the same output file (`GoismsOutputPathsCollide`).

## Model

| member | source | states |
|---|---|---|
| Naming.ChrootLocation | main.go:23-25 | the chroot of a Debian architecture is `/var/lib/bagccgop/<arch>-chroot` |
| Naming.ChrootLocationInjective | main.go:23-25 | two architectures share a chroot root only if they are equal (with the non-cleaning join of `Base.JoinPath`; for the catalog's architectures, none of which contains '/' or is `.`/`..`, Go's `filepath.Join` agrees) |
| Naming.PkgNameForArch | main.go:81-83 | the qualified name is the package, one ':' and the Debian architecture, in that order |
| Naming.PkgNameForArchRoundTrip | main.go:81-83 | `pkg + ":" + arch` splits at its last ':' back into `pkg` and `arch` whenever `arch` has no ':' |
| Naming.CC | main.go:85-87 | the C cross compiler is the toolchain prefix followed by `-gcc` |
| Naming.GCCGo | main.go:89-91 | the Go cross compiler is the toolchain prefix followed by `-gccgo` |
| Naming.CompilerNames | main.go:85-91 | each compiler name determines its toolchain prefix, and no `-gcc` name equals a `-gccgo` name |
| Base.JoinPathPair | main.go:266 | joining a directory and a name inserts "/" only between two non-empty parts; an empty directory yields the name alone |
| Platforms.CatalogLinux | main.go:103-202 | the catalog has 14 entries, all with OS `linux` |
| Platforms.CatalogFieldsNonEmpty | main.go:103-202 | every entry has a non-empty Go architecture, Debian architecture and toolchain prefix |
| Platforms.DebianArchesDistinct | main.go:103-202 | Debian architectures, and therefore chroot roots, are pairwise distinct |
| Platforms.PackageSuffixEmpty | main.go:139-145 | the package suffix is empty exactly for the amd64 entry (index 5) |
| Platforms.PackageSuffixRule | main.go:103-202 | every other entry's package suffix is `-` followed by its toolchain prefix |
| Platforms.GoArchIndices | main.go:139-166 | Go architecture amd64 occurs only at index 5; arm occurs exactly at indices 7 and 8 |
| Platforms.GoArchesWithoutSlash | main.go:103-202 | no Go architecture in the catalog contains '/' |
| Platforms.Amd64Prefix | main.go:103-202 | only the amd64 entry (index 5) has a Go architecture starting with `amd64` |
| Platforms.ArmPrefix | main.go:146-166 | the Go architectures starting with `arm` are exactly those of arm64, armel and armhf (indices 6 to 8) |
| Platforms.AlphaPrefix | main.go:103-202 | only the alpha entry (index 0) has a Go architecture starting with `alpha` |
| Platforms.Ppc64lePrefixes | main.go:188-194 | no Go architecture starts with `ppc64el`; only the ppc64el entry (index 12) has one starting with `ppc64le` |
| Platforms.GoTargetsNotUnique | main.go:153-166 | armel and armhf share OS and Go architecture `arm` but have different Debian architectures |
| Platforms.CatalogQualifiedNamesSplit | main.go:81-83 | for every catalog entry, the qualified package name splits back into package and architecture |
| Exec.FailFast | main.go:34-50 | a fail-fast walk starts at most every process; it starts all of them when none fails; a failed walk started at least one |
| Exec.FailFastPrefix | main.go:58-76 | the processes a walk starts are a prefix of its list, in list order |
| Exec.FailFastOutcomes | main.go:58-76 | every started process exited zero, except the last one when the walk failed |
| Exec.FailFastStopsAt | main.go:73-75 | a started process that exits non-zero is the last one started, and the walk reports failure |
| Exec.FailFastAllSucceed | main.go:58-78 | when every process exits zero the walk starts the whole list and succeeds |
| Exec.FailFastAppend | main.go:58-76 | walking `xs + ys` walks `xs` and, only if that succeeded, then `ys` after it |
| Exec.ChrootInvocation | main.go:59-70 | a chroot command runs `chroot <root> /bin/bash -c <script>` with an environment that starts with the inherited one |
| Exec.ChrootInvocations | main.go:57-76 | `execInChroot` issues one chroot invocation per command, in command order, all with the same overlay |
| Exec.OverlayEntriesInOrder | main.go:68-70 | the overlay adds one `quoted-key=value` entry per visited key, in visiting order |
| Exec.ProcessEnvLayout | main.go:66-70 | a chroot command's `Cmd.Env` is the inherited environment unchanged, then at position `i` the entry of the `i`-th visited overlay key, so every key has an entry |
| Exec.TwoKeyOverlay | main.go:66-70 | for an overlay of two keys, the entries after the inherited environment are those two `quoted-key=value` entries and nothing else |
| Exec.OverlayOnlyKeys | main.go:66-70 | every entry after the inherited environment comes from a key of the overlay |
| Exec.ProcessEnv | main.go:66-70 | the loop builds that `Cmd.Env`, starting with the inherited environment |
| Exec.Effective | main.go:66-70 | what the started process sees for a variable is the value of the last `Cmd.Env` entry that sets it (os/exec drops earlier duplicates); no value iff no entry sets it |
| Exec.EffectiveAppend | main.go:66-70 | entries appended after the inherited environment override it: a variable the appended entries set takes their value, any other keeps the inherited one |
| Exec.OverlayWinsAt | main.go:66-70 | on a valid host, with name keys, a variable has the overlay's value if it is an overlay key and its inherited value otherwise |
| Exec.OverlayWins | main.go:66-70 | on a valid host, with name keys, every overlay key has the overlay's value, whatever was inherited, and every other name keeps its inherited value |
| Exec.OverlayKeepsOthers | main.go:66-70 | a name outside any set holding the overlay's keys keeps its inherited value |
| Exec.MountInvocations | main.go:34-38 | the mounts bind `/dev`, `/proc` and the working directory to `<root>/dev`, `<root>/proc` and `<root>/data`, in that order |
| Exec.MountChroot | main.go:27-53 | a failing Getwd starts nothing and reports it; otherwise the three mounts are walked fail-fast and the first failing mount is reported |
| Exec.ExecInChroot | main.go:55-79 | the commands are walked fail-fast as chroot invocations with the overlaid environment; the error names the failing one |
| Shell.WordsAppend | main.go:357-359 | joining two command lines with a space concatenates their word lists |
| Shell.LiteralWord | main.go:305 | a space-free word followed by a space is the first word of the line |
| Shell.TwoWords | main.go:332 | a line that starts with two space-free words splits into those two words and the words of the rest |
| Shell.ThreeWords | main.go:357-359 | a line that starts with three space-free words (`go build -o`, `apt install -y`) splits into those three words and the words of the rest |
| Shell.WordThenLine | main.go:333 | a space-free word, a space, a line and a space split into the word, the line's words and the rest's words |
| Shell.MkdirLineWords | main.go:332 | `mkdir -p <dir>` splits into `mkdir`, `-p` and the words of `dir` |
| Shell.DownloadLineWords | main.go:333 | `cd <dir> && apt download <q>` splits into `cd`, the words of `dir`, `&&`, `apt`, `download` and the words of `q` |
| Shell.DpkgLineWords | main.go:334 | `dpkg -i --force-all <f>` splits into `dpkg`, `-i`, `--force-all` and the words of `f` |
| Plan.OutputPath | main.go:265-273 | the output is `<dist>/<bin>.<goOS>-<id>` (no directory part when dist is empty), with `id` the Debian architecture, or the Go architecture with `--goisms` |
| Plan.DefaultOutputPathsDistinct | main.go:265-273 | without `--goisms`, no two catalog entries write the same output path |
| Plan.GoismsOutputPathsCollide | main.go:268-273 | with `--goisms`, the distinct armel and armhf entries write the same output path |
| Plan.OutputPathInOut | main.go:265-273 | with `--dist out --bin mybin`, a Linux entry writes `out/mybin.linux-<id>` |
| Plan.OutputPathAmd64 | main.go:265-273 | the amd64 entry writes `out/mybin.linux-amd64` under both conventions |
| Plan.OutputPathArmhf | main.go:265-273 | the armhf entry writes `out/mybin.linux-armhf` by default and `out/mybin.linux-arm` with `--goisms` |
| Plan.SkipDecision | main.go:275-284 | an empty exclude never skips; the decision is a regex error only when a non-empty pattern does not compile |
| Plan.SkipDecisionFacts | main.go:275-284 | the decision depends on the platform only through goOS/goArch |
| Plan.BadPatternEverywhere | main.go:278-281 | on a host where compiling a pattern does not depend on the subject, a pattern that fails for one platform fails for every platform |
| Plan.LinuxSubjectContains | main.go:278 | for a Go architecture without '/', `linux/<a>` occurs in `linux/<g>` exactly when `a` is a prefix of `g` |
| Plan.CatalogSubjectContains | main.go:278 | for every catalog entry, `linux/<a>` occurs in its subject exactly when `a` is a prefix of its Go architecture |
| Plan.PrefixExclude | main.go:275-291 | a literal pattern `linux/<a>`, matched anywhere in the subject, skips exactly the entries whose Go architecture starts with `a` |
| Plan.LiteralExcludes | main.go:275-291 | `linux/amd64` skips the amd64 entry only; `linux/arm` skips exactly arm64, armel and armhf |
| Plan.UsageExampleSkipsAlphaOnly | main.go:208-209 | the usage example, the alternation of `linux/alpha` and `linux/ppc64el`, skips only alpha; the ppc64el entry is still built |
| Plan.CorrectedUsageExampleSkips | main.go:208-209 | the alternation of `linux/alpha` and `linux/ppc64le` skips exactly alpha and ppc64el |
| Plan.AptInstallWords | main.go:305 | an install line hands `apt` the words `install -y` and then the words of the quoted package |
| Plan.ManualScriptWords | main.go:332-334 | the three manual-install lines work in `/tmp/bagccgop-packages/<q>`: `mkdir -p` it, `cd` into it and `apt download` the package, `dpkg -i --force-all` its `*.deb` files |
| Plan.PrepareEnv | main.go:347-350 | the prepare overlay has exactly the keys CC and GCCGO, set to `<prefix>-gcc` and `<prefix>-gccgo` |
| Plan.BuildEnv | main.go:368-380 | the build overlay has the prepare keys with the same values, plus CGO_ENABLED=1, GOOS, GOARCH, and GOFLAGS with `-compiler=gccgo ` before the inherited value; DST (the quoted output) is present iff plain |
| Plan.PrepareProcessEnv | main.go:344-351 | on a valid host, the prepare command's `Cmd.Env` is the inherited environment and then only the CC and GCCGO entries |
| Plan.PrepareEffectiveEnv | main.go:344-351 | on a valid host, the prepare process sees CC and GCCGO with the platform's compilers, overriding any inherited value, and every other name as inherited |
| Plan.BuildProcessEnv | main.go:384-387 | on a valid host, the build command's `Cmd.Env` is the inherited environment and then one entry per build-overlay key, including `CGO_ENABLED=1` and, in plain mode, DST, and no entry that is not of an overlay key |
| Plan.BuildEffectiveEnv | main.go:366-387 | on a valid host, the build process sees the platform's CC and GCCGO, `CGO_ENABLED=1`, the platform's GOOS and GOARCH, and GOFLAGS as `-compiler=gccgo ` before the inherited GOFLAGS, overriding any inherited values; DST is the quoted output path in plain mode and the inherited DST otherwise; every name that is not an overlay key is inherited |
| Plan.BuildLine | main.go:362-364 | in plain mode the build line is the input verbatim |
| Plan.BuildLineWords | main.go:356-365 | in plain mode the line is the input verbatim; otherwise its words are `go build -o`, the output, the extra arguments (if any) and the input |
| Plan.BuildStepScript | main.go:382-389 | the build runs `cd data && <buildLine>` through `/bin/bash -c` in the platform's chroot |
| Plan.PlatformSteps | main.go:296-389 | the plan's length: 3 mounts, one step per host package and per package, three per manual package, one prepare step if a prepare command is given, and the build (its contents are stated by `Plan.PlanByStage`) |
| Plan.ManualSteps | main.go:325-340 | three steps per manual package, all of the manual-package stage |
| Plan.ManualStepsAt | main.go:325-340 | step `3i+k` of the manual installs is command `k` of package `i`'s triplet |
| Plan.MountSlice | main.go:296-299 | the plan opens with the three mounts |
| Plan.HostSlice | main.go:301-310 | next comes one unqualified `apt install -y` per host package |
| Plan.PackageSlice | main.go:312-323 | next comes one `apt install -y <pkg>:<debianArch>` per package |
| Plan.ManualSlice | main.go:325-340 | next come the manual installs, three per package |
| Plan.PrepareSlice | main.go:342-354 | next comes the prepare command, only when one is given |
| Plan.BuildSlice | main.go:382-389 | the plan ends with the build |
| Plan.PlanByStage | main.go:296-389 | the plan is exactly mounts, host packages, packages, manual packages, prepare, build, in that order |
| Plan.LayoutMount | main.go:296-299 | the first three processes of the plan are the mount invocations, tagged Mount |
| Plan.HostStretch | main.go:301-310 | host package `i` is the plan step at `3 + i` |
| Plan.PackageStretch | main.go:312-323 | package `i` is the plan step right after the host packages plus `i` |
| Plan.ManualStretch | main.go:325-340 | manual package `i` occupies three consecutive plan steps starting at `ManualStart + 3i` |
| Plan.ManualCommand | main.go:329-336 | each of those three steps is the corresponding command of the triplet |
| Plan.ManualTriplet | main.go:331-335 | the triplet is mkdir, `cd … && apt download`, `dpkg -i --force-all …/*.deb`, all naming the same quoted `pkg:debianArch` |
| Plan.PrepareStretch | main.go:342-354 | the prepare command follows the manual installs, with the compiler overlay |
| Plan.BuildStretch | main.go:382-389 | the build, with the build overlay, is the last step of the plan |
| Pipeline.PlatformSpec | main.go:275-299 | a skip is exactly a matching exclude and starts nothing; a bad pattern aborts at the exclude stage; an unreadable working directory aborts at the mount stage |
| Pipeline.PlatformRunFacts | main.go:296-389 | a platform that is not skipped starts a prefix of its plan; it is built iff the whole plan ran; all started processes exited zero but a failing last one; the abort names that process and its stage |
| Pipeline.RunStage | main.go:303-309 | one `execInChroot` call followed by its fatal check either extends the run plan or aborts the platform at that stage |
| Pipeline.MountFailure | main.go:296-299 | a failing `mountChroot` aborts the platform at the mount stage with its error |
| Pipeline.MountSuccess | main.go:296-299 | a successful `mountChroot` has run the first three plan steps |
| Pipeline.InstallHostPackages | main.go:301-310 | the host-package loop runs its plan stretch or aborts the platform at HostPackages |
| Pipeline.InstallPackages | main.go:312-323 | the package loop runs its plan stretch or aborts the platform at Packages |
| Pipeline.InstallManualPackages | main.go:325-340 | the manual-package loop runs its plan stretch or aborts the platform at ManualPackages |
| Pipeline.PrepareAndBuild | main.go:342-389 | the optional prepare and the build finish the platform exactly as the fail-fast plan does |
| Pipeline.PlanFinished | main.go:382-390 | having run the whole plan, the platform is built |
| Pipeline.BuildPlatform | main.go:258-390 | the worker body's outcome and started processes equal the specification `PlatformSpec` |
| Pipeline.FirstFailureIsLast | main.go:296-389 | a plan step that exits non-zero is the last process of its platform, which aborts at that step's stage |
| Pipeline.DownloadFailureSkipsInstall | main.go:329-339 | a failing `apt download` aborts the platform before its `dpkg -i` starts |
| Pipeline.RunAll | main.go:254-263 | dispatch stops after the first aborted worker; no outcome before the last is an abort; an outcome is Skipped iff the exclude pattern matched |
| Pipeline.HaltedStays | main.go:254-263 | after an abort, later platforms change nothing |
| Pipeline.BadPatternAbortsFirst | main.go:275-281 | an exclude pattern that does not compile aborts on the first platform, before any process is started |
| Pipeline.BuiltAlone | main.go:296-389 | with no exclude and every process succeeding, one platform runs its whole plan and is built |
| Pipeline.AllBuilt | main.go:254-393 | then every platform is built and the started processes are the plans, one platform after another in catalog order |
| Pipeline.BuildAll | main.go:254-393 | the dispatch loop with `--jobs 1` produces exactly `RunAll` over the catalog |

## Left out

- Concurrency: with `--jobs N > 1`, up to N workers overlap, and a `log.Fatal` in one kills the others mid-run. Only `--jobs 1` is modelled. The guard channel then makes dispatch sequential. With `--jobs 0` the guard channel is unbuffered, so the first send blocks while no other goroutine is running. The Go runtime then stops the program with a deadlock fatal error (exit status 2). A negative value panics in `make`. Neither case is modelled.
- Process execution: `cmd.Run` is an oracle, `Host.exitsZero`, which sees every process started before. Captured stdout/stderr and the error texts are not modelled; a failure carries the invocation that failed.
- Calls into libraries are parameters of `Host`:
  - `os.Getwd`, `os.Environ` and `os.Getenv("GOFLAGS")`;
  - `shellescape.Quote`;
  - `regexp.MatchString`, which returns `None` when the pattern does not compile;
  - the order in which `range` visits a Go map.
- `Exec.ValidHost`: `Host` places no constraint on its `keyOrder`, `quote` and `matches` fields. `keyOrder` is a function of the map, so the model visits a given map in one fixed order, while Go picks a fresh random order at every `range`. For main.go this changes nothing, because each non-empty overlay goes to an `execInChroot` call with a single command (main.go:344-351, 382-387). For a multi-command call with an overlay, `Exec.ExecInChroot` promises the same entry order for every command, which Go does not. Go and its libraries guarantee that `range` visits each key of a map exactly once, that `shellescape.Quote` returns a name of letters, digits and `_` unchanged, and that a pattern's compile error does not depend on the subject. The lemmas that need these guarantees take `ValidHost` as a precondition (`PrepareProcessEnv`, `BuildProcessEnv`, `PrepareEffectiveEnv`, `BuildEffectiveEnv`, `OverlayWins`, `BadPatternEverywhere`).
- `Exec.Effective`: `Invocation.env` is `Cmd.Env` as main.go builds it, duplicates included. os/exec passes the process only the last entry for each variable, so an overlay entry replaces an inherited one; `Effective` states that rule, and `OverlayWins` proves it for overlays whose keys are names, as all of main.go's are. os/exec's other checks (an entry holding a NUL byte makes the start fail; Windows compares names without case) are not modelled.
- `Plan.PrefixExclude`: regular-expression semantics are not modelled. The lemmas about particular patterns (`PrefixExclude`, `LiteralExcludes` and the two usage-example lemmas) require the oracle to answer as an unanchored search for the pattern's literal alternatives, which is what `regexp.MatchString` does for patterns without other metacharacters.
- `Exec.MountChroot`: the working directory is one value for the whole run. main.go reads it again for every platform; the model takes all those reads to agree.
- `Base.JoinPath`: lexical cleaning by `path.Join`/`filepath.Join` (`..`, `.`, repeated slashes, trailing slashes) is not modelled. Components are joined as given.
- `Shell.Words`: splits on spaces only. Shell quoting, escapes, tabs and expansions (`$DST` in plain mode) are not modelled.
- Command-line parsing: these are not modelled:
  - flag parsing and usage text;
  - comma splitting of the list flags;
  - the missing-INPUT exit with status 2.

  The parsed options are the `Plan.Options` input.
- Logging and coloured messages are not modelled.
- The `APTPackageSuffix` field is part of the catalog and its facts, but main.go never reads it when building.
- Mounts are never unmounted by main.go, so there is no unmount to model.

## Findings

| source | as written | input that shows it | evidently intended | confidence | as-written member | corrected member |
|---|---|---|---|---|---|---|
| main.go:208-209 | both usage examples, and the `--exclude` help at main.go:220, exclude the alternation of `linux/alpha` and `linux/ppc64el`; `ppc64el` is the Debian name, and no `<goOS>/<goArch>` subject contains `linux/ppc64el` | running either example: the ppc64el entry (Go architecture `ppc64le`) is not skipped | the alternation of `linux/alpha` and `linux/ppc64le`, which skips alpha and ppc64el | not executed | Plan.UsageExampleSkipsAlphaOnly | Plan.CorrectedUsageExampleSkips |

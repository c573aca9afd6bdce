/** Starting processes: the bind mounts of `mountChroot`, the chroot shell
    commands of `execInChroot`, and the fail-fast walk both share. */
module Exec {
  import opened Base
  import opened Naming

  /** One started process: program, arguments and `Cmd.Env` as main.go builds it
      (`Effective` gives what the process sees for a variable). */
  datatype Invocation = Invocation(program: string, args: seq<string>, env: seq<string>)

  /** Exit-status oracle: does `inv` exit zero, given every process started before it? */
  type ExitOracle = (seq<Invocation>, Invocation) -> bool

  /** Everything main.go reads from outside itself. */
  datatype Host = Host(
    cwd: Option<string>,                           // os.Getwd (None: it failed)
    environ: seq<string>,                          // os.Environ
    goflags: string,                               // os.Getenv("GOFLAGS")
    quote: string -> string,                       // shellescape.Quote
    keyOrder: map<string, string> -> seq<string>,  // the order `range` visits a map
    matches: (string, string) -> Option<bool>,     // regexp.MatchString (None: bad pattern)
    exitsZero: ExitOracle)

  datatype Failure =
    | GetwdFailed                   // the working directory could not be read
    | BadPattern                    // the exclude regex does not compile
    | ProcessFailed(inv: Invocation) // a started process exited non-zero

  /** What a fail-fast walk did: the processes it started, and whether the last one failed. */
  datatype Run = Run(started: seq<Invocation>, failed: bool)

  /** Process `i` of `invs` exits zero when started after `history` and the
      processes before it in `invs`. */
  predicate Succeeds(ok: ExitOracle, history: seq<Invocation>, invs: seq<Invocation>, i: nat)
    requires i < |invs|
  {
    ok(history + invs[..i], invs[i])
  }

  /** Start `invs` in order and stop right after the first one that exits
      non-zero. `history` is what was started before the walk. */
  function FailFast(ok: ExitOracle, history: seq<Invocation>, invs: seq<Invocation>): (r: Run)
    ensures |r.started| <= |invs|
    ensures !r.failed ==> r.started == invs
    ensures r.failed ==> r.started != []
    decreases |invs|
  {
    if invs == [] then Run([], false)
    else if !ok(history, invs[0]) then Run([invs[0]], true)
    else
      var rest := FailFast(ok, history + [invs[0]], invs[1..]);
      Run([invs[0]] + rest.started, rest.failed)
  }

  /** A walk starts a prefix of `invs`. */
  lemma {:induction false} FailFastPrefix(ok: ExitOracle, history: seq<Invocation>, invs: seq<Invocation>)
    ensures var r := FailFast(ok, history, invs); r.started == invs[..|r.started|]
    decreases |invs|
  {
    if invs != [] && ok(history, invs[0]) {
      var rest := FailFast(ok, history + [invs[0]], invs[1..]);
      FailFastPrefix(ok, history + [invs[0]], invs[1..]);
      assert invs[..1 + |rest.started|] == [invs[0]] + invs[1..][..|rest.started|];
    }
  }

  /** Every process a walk starts exits zero except, when the walk failed,
      the last one. */
  lemma {:induction false} FailFastOutcomes(ok: ExitOracle, history: seq<Invocation>, invs: seq<Invocation>)
    ensures var r := FailFast(ok, history, invs);
      forall i :: 0 <= i < |r.started| ==>
        (Succeeds(ok, history, invs, i) <==> !(r.failed && i == |r.started| - 1))
    decreases |invs|
  {
    if invs != [] {
      assert history + invs[..0] == history;
      assert Succeeds(ok, history, invs, 0) == ok(history, invs[0]);
      if ok(history, invs[0]) {
        FailFastOutcomes(ok, history + [invs[0]], invs[1..]);
        forall i | 1 <= i < |invs|
          ensures Succeeds(ok, history, invs, i) == Succeeds(ok, history + [invs[0]], invs[1..], i - 1)
        {
          assert history + invs[..i] == history + [invs[0]] + invs[1..][..i - 1];
        }
      }
    }
  }

  /** A started process that exits non-zero is the last one a walk starts. */
  lemma FailFastStopsAt(ok: ExitOracle, history: seq<Invocation>, invs: seq<Invocation>, n: nat)
    requires n < |FailFast(ok, history, invs).started| && n < |invs| && !Succeeds(ok, history, invs, n)
    ensures var r := FailFast(ok, history, invs);
      r.failed && |r.started| == n + 1 && r.started[n] == invs[n]
  {
    FailFastPrefix(ok, history, invs);
    FailFastOutcomes(ok, history, invs);
  }

  /** When every process exits zero, a walk starts all of `invs` and does not fail. */
  lemma {:induction false} FailFastAllSucceed(ok: ExitOracle, history: seq<Invocation>, invs: seq<Invocation>)
    requires forall before, inv :: ok(before, inv)
    ensures FailFast(ok, history, invs) == Run(invs, false)
    decreases |invs|
  {
    if invs != [] {
      FailFastAllSucceed(ok, history + [invs[0]], invs[1..]);
      assert [invs[0]] + invs[1..] == invs;
    }
  }

  /** The error a walk reports: the process that failed, if one did. */
  function RunError(r: Run): Option<Failure>
  {
    if r.failed && r.started != [] then Some(ProcessFailed(r.started[|r.started| - 1])) else None
  }

  /** A walk over `xs + ys` is the walk over `xs` and, only if that
      succeeded, the walk over `ys` after it. */
  lemma {:induction false} FailFastAppend(ok: ExitOracle, history: seq<Invocation>, xs: seq<Invocation>, ys: seq<Invocation>)
    ensures var a := FailFast(ok, history, xs);
      FailFast(ok, history, xs + ys) ==
        if a.failed then a
        else var b := FailFast(ok, history + xs, ys); Run(xs + b.started, b.failed)
    decreases |xs|
  {
    if xs == [] {
      assert xs + ys == ys;
      assert history + xs == history;
    } else {
      assert (xs + ys)[0] == xs[0];
      assert (xs + ys)[1..] == xs[1..] + ys;
      if ok(history, xs[0]) {
        FailFastAppend(ok, history + [xs[0]], xs[1..], ys);
        assert history + [xs[0]] + xs[1..] == history + xs;
        assert [xs[0]] + xs[1..] == xs;
      }
    }
  }

  /** One step of a walk done piecewise: the first `k` processes ran and
      succeeded, and the processes `k..m` are walked next. */
  lemma Advance(ok: ExitOracle, history: seq<Invocation>, invs: seq<Invocation>, k: nat, m: nat)
    requires k <= m <= |invs|
    requires FailFast(ok, history, invs[..k]) == Run(invs[..k], false)
    ensures var r := FailFast(ok, history + invs[..k], invs[k..m]);
      && (!r.failed ==> FailFast(ok, history, invs[..m]) == Run(invs[..m], false))
      && (r.failed ==> FailFast(ok, history, invs) == Run(invs[..k] + r.started, true))
  {
    assert invs[..m] == invs[..k] + invs[k..m];
    FailFastAppend(ok, history, invs[..k], invs[k..m]);
    var r := FailFast(ok, history + invs[..k], invs[k..m]);
    if r.failed {
      assert invs == invs[..m] + invs[m..];
      FailFastAppend(ok, history, invs[..m], invs[m..]);
    }
  }

  /** A walk resumed after `started`, processes that all succeeded, over a
      batch in which every process succeeded: the whole succeeded. */
  lemma ResumeDone(ok: ExitOracle, history: seq<Invocation>, started: seq<Invocation>, batch: seq<Invocation>)
    requires FailFast(ok, history, started) == Run(started, false)
    requires !FailFast(ok, history + started, batch).failed
    ensures FailFast(ok, history, started + batch) == Run(started + batch, false)
  {
    FailFastAppend(ok, history, started, batch);
  }

  /** The same walk stopping inside the batch, which extends `started` to a
      prefix of `invs`: the walk over the whole of `invs` stops there too. */
  lemma ResumeFailed(ok: ExitOracle, history: seq<Invocation>, invs: seq<Invocation>, started: seq<Invocation>,
                     batch: seq<Invocation>)
    requires started + batch <= invs
    requires FailFast(ok, history, started) == Run(started, false)
    requires FailFast(ok, history + started, batch).failed
    ensures FailFast(ok, history, invs) == Run(started + FailFast(ok, history + started, batch).started, true)
  {
    FailFastAppend(ok, history, started, batch);
    var rest := invs[|started + batch|..];
    assert invs == (started + batch) + rest;
    FailFastAppend(ok, history, started + batch, rest);
  }

  /** A prefix of `invs` followed by the stretch of `invs` after it is again a prefix. */
  lemma PrefixExtend(invs: seq<Invocation>, started: seq<Invocation>, batch: seq<Invocation>)
    requires started <= invs && |started| + |batch| <= |invs|
    requires invs[|started|..|started| + |batch|] == batch
    ensures started + batch <= invs
  {
    assert started + batch == invs[..|started| + |batch|];
  }

  /** The entries `execInChroot` appends for an overlay, visiting `keys` in order. */
  function OverlayEntries(quote: string -> string, keys: seq<string>, env: map<string, string>): (r: seq<string>)
    ensures |r| <= |keys|
    decreases |keys|
  {
    if keys == [] then []
    else
      var k := keys[|keys| - 1];
      var init := OverlayEntries(quote, keys[..|keys| - 1], env);
      if k in env then init + [quote(k) + "=" + env[k]] else init
  }

  /** `range` visits every key of the map exactly once. */
  ghost predicate IsKeyOrder(keys: seq<string>, env: map<string, string>)
  {
    && (forall i :: 0 <= i < |keys| ==> keys[i] in env)
    && (forall k :: k in env ==> k in keys)
    && (forall i, j :: 0 <= i < j < |keys| ==> keys[i] != keys[j])
  }

  /** The environment of a chroot command: the inherited one, then the overlay. */
  function ProcessEnvOf(h: Host, env: map<string, string>): seq<string>
  {
    h.environ + OverlayEntries(h.quote, h.keyOrder(env), env)
  }

  /** A variable name that `shellescape.Quote` returns unchanged: non-empty,
      of ASCII letters, digits and `_` only. */
  predicate IsName(k: string)
  {
    k != [] && forall i :: 0 <= i < |k| ==> NameChar(k[i])
  }

  predicate NameChar(c: char)
  {
    'A' <= c <= 'Z' || 'a' <= c <= 'z' || '0' <= c <= '9' || c == '_'
  }

  /** What Go and its libraries guarantee of the outside world: `range`
      visits every key of a map exactly once, `shellescape.Quote` leaves a
      name as it is, and whether a pattern compiles does not depend on the
      string it is matched against. */
  ghost predicate ValidHost(h: Host)
  {
    && (forall env: map<string, string> :: IsKeyOrder(h.keyOrder(env), env))
    && (forall k :: IsName(k) ==> h.quote(k) == k)
    && (forall pat, s, t :: h.matches(pat, s).None? ==> h.matches(pat, t).None?)
  }

  /** When the visiting order lists only keys of the overlay, the appended
      entries are one `quoted-key=value` per visited key, in visiting order. */
  lemma {:induction false} OverlayEntriesInOrder(quote: string -> string, keys: seq<string>, env: map<string, string>)
    requires forall i :: 0 <= i < |keys| ==> keys[i] in env
    ensures |OverlayEntries(quote, keys, env)| == |keys|
    ensures forall i :: 0 <= i < |keys| ==>
      OverlayEntries(quote, keys, env)[i] == quote(keys[i]) + "=" + env[keys[i]]
    decreases |keys|
  {
    if keys != [] {
      OverlayEntriesInOrder(quote, keys[..|keys| - 1], env);
    }
  }

  /** The environment of every chroot command starts with the inherited
      environment and then holds one entry per overlay key, at the position
      where `range` visits that key. */
  lemma ProcessEnvLayout(h: Host, env: map<string, string>)
    requires IsKeyOrder(h.keyOrder(env), env)
    ensures var e := ProcessEnvOf(h, env);
      && e[..|h.environ|] == h.environ
      && |e| == |h.environ| + |h.keyOrder(env)|
      && (forall k :: k in env ==> h.quote(k) + "=" + env[k] in e[|h.environ|..])
      && (forall i :: 0 <= i < |h.keyOrder(env)| ==>
            e[|h.environ| + i] == h.quote(h.keyOrder(env)[i]) + "=" + env[h.keyOrder(env)[i]])
  {
    var keys := h.keyOrder(env);
    var e := ProcessEnvOf(h, env);
    OverlayEntriesInOrder(h.quote, keys, env);
    assert e[|h.environ|..] == OverlayEntries(h.quote, keys, env);
    forall k | k in env
      ensures h.quote(k) + "=" + env[k] in e[|h.environ|..]
    {
      var i :| 0 <= i < |keys| && keys[i] == k;
      assert e[|h.environ|..][i] == h.quote(k) + "=" + env[k];
    }
  }

  /** `x` is the entry of some key of the overlay: the key, quoted, `=` and its value. */
  ghost predicate OverlayEntry(h: Host, env: map<string, string>, x: string)
  {
    exists k :: k in env && x == h.quote(k) + "=" + env[k]
  }

  /** Every entry after the inherited environment belongs to a key of the
      overlay. */
  lemma OverlayOnlyKeys(h: Host, env: map<string, string>)
    requires IsKeyOrder(h.keyOrder(env), env)
    ensures var e := ProcessEnvOf(h, env);
      forall i :: |h.environ| <= i < |e| ==> OverlayEntry(h, env, e[i])
  {
    var keys := h.keyOrder(env);
    var e := ProcessEnvOf(h, env);
    var tail := OverlayEntries(h.quote, keys, env);
    assert e == h.environ + tail;
    OverlayEntriesInOrder(h.quote, keys, env);
    forall i | |h.environ| <= i < |e|
      ensures OverlayEntry(h, env, e[i])
    {
      var k := keys[i - |h.environ|];
      assert e[i] == tail[i - |h.environ|] == h.quote(k) + "=" + env[k];
    }
  }

  /** For an overlay of two keys `a` and `b`, the entries after the inherited
      environment are the two `quoted-key=value` entries and nothing else. */
  lemma TwoKeyOverlay(h: Host, env: map<string, string>, a: string, b: string)
    requires IsKeyOrder(h.keyOrder(env), env) && env.Keys == {a, b}
    ensures var tail := ProcessEnvOf(h, env)[|h.environ|..];
      && h.quote(a) + "=" + env[a] in tail
      && h.quote(b) + "=" + env[b] in tail
      && (forall i :: 0 <= i < |tail| ==> tail[i] == h.quote(a) + "=" + env[a] || tail[i] == h.quote(b) + "=" + env[b])
  {
    var e := ProcessEnvOf(h, env);
    var tail := e[|h.environ|..];
    ProcessEnvLayout(h, env);
    OverlayOnlyKeys(h, env);
    forall i | 0 <= i < |tail|
      ensures tail[i] == h.quote(a) + "=" + env[a] || tail[i] == h.quote(b) + "=" + env[b]
    {
      assert tail[i] == e[|h.environ| + i];
      var k :| k in env && e[|h.environ| + i] == h.quote(k) + "=" + env[k];
      assert k in env.Keys;
    }
  }

  /** Entry `x` of `Cmd.Env` sets the variable `k`. os/exec splits an entry
      at its first `=`, which for a `k` without `=` is the one right after `k`. */
  predicate Sets(x: string, k: string)
  {
    |k| < |x| && x[..|k|] == k && x[|k|] == '='
  }

  /** The value the started process sees for `k`: os/exec keeps only the
      last entry of `Cmd.Env` that sets a variable, and None means no entry
      sets it. */
  function Effective(env: seq<string>, k: string): (r: Option<string>)
    ensures r.None? <==> forall i :: 0 <= i < |env| ==> !Sets(env[i], k)
    decreases |env|
  {
    if env == [] then None
    else if Sets(env[|env| - 1], k) then Some(env[|env| - 1][|k| + 1..])
    else Effective(env[..|env| - 1], k)
  }

  /** Entries appended after `a` override it: a variable `b` sets takes its
      value from `b`, every other one keeps its value from `a`. */
  lemma {:induction false} EffectiveAppend(a: seq<string>, b: seq<string>, k: string)
    ensures Effective(a + b, k) == if Effective(b, k).Some? then Effective(b, k) else Effective(a, k)
    decreases |b|
  {
    if b != [] {
      var ab := a + b;
      assert ab[|ab| - 1] == b[|b| - 1];
      assert ab[..|ab| - 1] == a + b[..|b| - 1];
      EffectiveAppend(a, b[..|b| - 1], k);
    } else {
      assert a + b == a;
    }
  }

  /** The last entry that sets `k` gives `k` its value. */
  lemma {:induction false} EffectiveLast(env: seq<string>, j: nat, k: string)
    requires j < |env| && Sets(env[j], k)
    requires forall i :: j < i < |env| ==> !Sets(env[i], k)
    ensures Effective(env, k) == Some(env[j][|k| + 1..])
    decreases |env|
  {
    if j < |env| - 1 {
      EffectiveLast(env[..|env| - 1], j, k);
    }
  }

  /** The entry `n=v` of a name `n` sets the name `k` exactly when `k` is `n`. */
  lemma NameEntrySets(n: string, v: string, k: string)
    requires IsName(n) && IsName(k)
    ensures Sets(n + "=" + v, k) <==> n == k
  {
    var x := n + "=" + v;
    assert forall i :: 0 <= i < |n| ==> x[i] == n[i] && x[i] != '=';
    assert x[|n|] == '=';
    if Sets(x, k) {
      forall i | 0 <= i < |k|
        ensures x[i] == k[i] && x[i] != '='
      {
        assert x[..|k|][i] == k[i];
      }
      assert |k| == |n|;
      assert k == x[..|k|] == n;
    }
  }

  /** What one name `k` is in the environment of a chroot command whose
      overlay keys are all names. */
  lemma OverlayWinsAt(h: Host, env: map<string, string>, k: string)
    requires ValidHost(h) && IsName(k)
    requires forall n :: n in env ==> IsName(n)
    ensures Effective(ProcessEnvOf(h, env), k) == if k in env then Some(env[k]) else Effective(h.environ, k)
  {
    var keys := h.keyOrder(env);
    assert IsKeyOrder(keys, env);
    var tail := OverlayEntries(h.quote, keys, env);
    OverlayEntriesInOrder(h.quote, keys, env);
    EffectiveAppend(h.environ, tail, k);
    forall i | 0 <= i < |tail|
      ensures Sets(tail[i], k) <==> keys[i] == k
    {
      assert tail[i] == keys[i] + "=" + env[keys[i]];
      NameEntrySets(keys[i], env[keys[i]], k);
    }
    if k in env {
      var j :| 0 <= j < |keys| && keys[j] == k;
      EffectiveLast(tail, j, k);
      assert tail[j] == k + "=" + env[k];
      assert tail[j][|k| + 1..] == env[k];
    }
  }

  /** The overlay wins: on a valid host, when every overlay key is a name,
      the started process sees each overlay key with the overlay's value,
      whatever the inherited environment held for it, and every other name
      with its inherited value. */
  lemma OverlayWins(h: Host, env: map<string, string>)
    requires ValidHost(h)
    requires forall n :: n in env ==> IsName(n)
    ensures forall k :: k in env ==> Effective(ProcessEnvOf(h, env), k) == Some(env[k])
    ensures forall k :: IsName(k) && k !in env ==> Effective(ProcessEnvOf(h, env), k) == Effective(h.environ, k)
  {
    forall k | IsName(k)
      ensures Effective(ProcessEnvOf(h, env), k) == if k in env then Some(env[k]) else Effective(h.environ, k)
    {
      OverlayWinsAt(h, env, k);
    }
  }

  /** A name outside a set that holds every overlay key keeps its inherited value. */
  lemma OverlayKeepsOthers(h: Host, env: map<string, string>, keys: set<string>)
    requires ValidHost(h)
    requires forall n :: n in env ==> IsName(n)
    requires env.Keys <= keys
    ensures forall k :: IsName(k) && k !in keys ==> Effective(ProcessEnvOf(h, env), k) == Effective(h.environ, k)
  {
    forall k | IsName(k) && k !in keys
      ensures Effective(ProcessEnvOf(h, env), k) == Effective(h.environ, k)
    {
      OverlayWinsAt(h, env, k);
    }
  }

  /** The environment `execInChroot` gives each command: the inherited
      environment, then one `quoted-key=value` entry per visited overlay key. */
  method ProcessEnv(h: Host, env: map<string, string>) returns (e: seq<string>)
    ensures e == ProcessEnvOf(h, env)
    ensures e[..|h.environ|] == h.environ
  {
    e := h.environ;
    var keys := h.keyOrder(env);
    for i := 0 to |keys|
      invariant e == h.environ + OverlayEntries(h.quote, keys[..i], env)
    {
      assert keys[..i + 1][..i] == keys[..i];
      var key := keys[i];
      if key in env {
        e := e + [h.quote(key) + "=" + env[key]];
      }
    }
    assert keys[..|keys|] == keys;
  }

  /** `chroot <root> /bin/bash -c <script>` with the overlaid environment. */
  function ChrootInvocation(h: Host, debianArch: string, script: string, env: map<string, string>): (r: Invocation)
    ensures r.program == "chroot"
    ensures r.args == ["/var/lib/bagccgop/" + debianArch + "-chroot", "/bin/bash", "-c", script]
    ensures |h.environ| <= |r.env| && r.env[..|h.environ|] == h.environ
  {
    Invocation("chroot", [ChrootLocation(debianArch), "/bin/bash", "-c", script], ProcessEnvOf(h, env))
  }

  /** The processes `execInChroot` would start for a command list, in list order. */
  function ChrootInvocations(h: Host, debianArch: string, cmds: seq<string>, env: map<string, string>): (r: seq<Invocation>)
    ensures |r| == |cmds|
    ensures forall i :: 0 <= i < |cmds| ==> r[i] == ChrootInvocation(h, debianArch, cmds[i], env)
  {
    seq(|cmds|, i requires 0 <= i < |cmds| => ChrootInvocation(h, debianArch, cmds[i], env))
  }

  /** The three bind mounts of a chroot, in the order `mountChroot` issues
      them: /dev, /proc and the working directory, onto the same-named
      directories (`data` for the working directory) under
      `/var/lib/bagccgop/<debianArch>-chroot`. */
  function MountInvocations(h: Host, debianArch: string, pwd: string): (r: seq<Invocation>)
    ensures var root := "/var/lib/bagccgop/" + debianArch + "-chroot";
      r == [ Invocation("mount", ["-o", "bind", "/dev", root + "/dev"], h.environ),
             Invocation("mount", ["-o", "bind", "/proc", root + "/proc"], h.environ),
             Invocation("mount", ["-o", "bind", pwd, root + "/data"], h.environ) ]
  {
    var root := ChrootLocation(debianArch);
    UnderRoot(root, "dev");
    UnderRoot(root, "proc");
    UnderRoot(root, MountedPwd);
    assert "/" + "dev" == "/dev" && "/" + "proc" == "/proc" && "/" + MountedPwd == "/data";
    [ Invocation("mount", ["-o", "bind", "/dev", JoinPath([root, "dev"])], h.environ),
      Invocation("mount", ["-o", "bind", "/proc", JoinPath([root, "proc"])], h.environ),
      Invocation("mount", ["-o", "bind", pwd, JoinPath([root, MountedPwd])], h.environ) ]
  }

  /** A mount point inside the chroot root. */
  lemma UnderRoot(root: string, name: string)
    requires root != "" && name != ""
    ensures JoinPath([root, name]) == root + ("/" + name)
  {
    JoinPathPair(root, name);
    assert root + "/" + name == root + ("/" + name);
  }

  /** `mountChroot`: read the working directory, then issue the three bind
      mounts in order, stopping at the first that fails. */
  method MountChroot(h: Host, history: seq<Invocation>, debianArch: string)
    returns (err: Option<Failure>, started: seq<Invocation>)
    ensures h.cwd.None? ==> err == Some(GetwdFailed) && started == []
    ensures h.cwd.Some? ==>
      var r := FailFast(h.exitsZero, history, MountInvocations(h, debianArch, h.cwd.value));
      started == r.started && err == RunError(r)
  {
    var chrootLocation := ChrootLocation(debianArch);
    if h.cwd.None? {
      return Some(GetwdFailed), [];
    }
    var pwd := h.cwd.value;
    var mounts := [
      ["-o", "bind", "/dev", JoinPath([chrootLocation, "dev"])],
      ["-o", "bind", "/proc", JoinPath([chrootLocation, "proc"])],
      ["-o", "bind", pwd, JoinPath([chrootLocation, MountedPwd])]
    ];
    ghost var invs := MountInvocations(h, debianArch, pwd);
    started := [];
    for i := 0 to |mounts|
      invariant FailFast(h.exitsZero, history, invs[..i]) == Run(started, false)
    {
      var inv := Invocation("mount", mounts[i], h.environ);
      assert inv == invs[i];
      var ok := h.exitsZero(history + started, inv);
      Advance(h.exitsZero, history, invs, i, i + 1);
      assert invs[i..i + 1] == [inv];
      started := started + [inv];
      if !ok {
        return Some(ProcessFailed(inv)), started;
      }
    }
    assert invs[..|mounts|] == invs;
    err := None;
  }

  /** `execInChroot`: run each command as `chroot <root> /bin/bash -c <cmd>`
      in list order, stopping at the first that fails. */
  method ExecInChroot(h: Host, history: seq<Invocation>, debianArch: string, cmds: seq<string>, env: map<string, string>)
    returns (err: Option<Failure>, started: seq<Invocation>)
    ensures var r := FailFast(h.exitsZero, history, ChrootInvocations(h, debianArch, cmds, env));
      started == r.started && err == RunError(r)
  {
    var chrootLocation := ChrootLocation(debianArch);
    ghost var invs := ChrootInvocations(h, debianArch, cmds, env);
    started := [];
    for i := 0 to |cmds|
      invariant FailFast(h.exitsZero, history, invs[..i]) == Run(started, false)
    {
      var cmdEnv := ProcessEnv(h, env);
      var inv := Invocation("chroot", [chrootLocation, "/bin/bash", "-c", cmds[i]], cmdEnv);
      assert inv == invs[i];
      var ok := h.exitsZero(history + started, inv);
      Advance(h.exitsZero, history, invs, i, i + 1);
      assert invs[i..i + 1] == [inv];
      started := started + [inv];
      if !ok {
        return Some(ProcessFailed(inv)), started;
      }
    }
    assert invs[..|cmds|] == invs;
    err := None;
  }
}

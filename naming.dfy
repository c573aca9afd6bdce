/** The string helpers of main.go: chroot location, architecture-qualified
    package names and the cross-toolchain executable names. */
module Naming {
  import opened Base

  /** Directory, relative to the chroot root, where the working directory is mounted. */
  const MountedPwd := "data"

  /** `getChrootLocation`: the chroot root of a Debian architecture. */
  function ChrootLocation(debianArch: string): (r: string)
    ensures r == "/var/lib/bagccgop/" + debianArch + "-chroot"
  {
    var elems := ["/var", "lib", "bagccgop", debianArch + "-chroot"];
    assert elems[..3] == ["/var", "lib", "bagccgop"];
    assert ["/var", "lib", "bagccgop"][..2] == ["/var", "lib"];
    JoinPathPair("/var", "lib");
    assert JoinPath(elems[..3]) == "/var/lib/bagccgop";
    JoinPath(elems)
  }

  /** Distinct architectures never share a chroot root. */
  lemma ChrootLocationInjective(a: string, b: string)
    ensures ChrootLocation(a) == ChrootLocation(b) ==> a == b
  {
    var pre := "/var/lib/bagccgop/";
    if ChrootLocation(a) == ChrootLocation(b) {
      assert |a| == |b| by {
        assert |pre + a + "-chroot"| == |pre + b + "-chroot"|;
      }
      assert (pre + a + "-chroot")[|pre|..|pre| + |a|] == a;
      assert (pre + b + "-chroot")[|pre|..|pre| + |b|] == b;
    }
  }

  /** `getPkgNameForArch`: the package name qualified by an architecture. */
  function PkgNameForArch(pkg: string, debianArch: string): (r: string)
    ensures |r| == |pkg| + 1 + |debianArch|
    ensures r[..|pkg|] == pkg && r[|pkg|] == ':' && r[|pkg| + 1..] == debianArch
  {
    pkg + ":" + debianArch
  }

  /** Position of the last ':' in `s`, if there is one. */
  function LastColon(s: string): (r: Option<nat>)
    ensures r.Some? ==> r.value < |s| && s[r.value] == ':' && ':' !in s[r.value + 1..]
    ensures r.None? ==> ':' !in s
    decreases |s|
  {
    if s == "" then None
    else if s[|s| - 1] == ':' then Some(|s| - 1)
    else
      var r := LastColon(s[..|s| - 1]);
      assert s == s[..|s| - 1] + [s[|s| - 1]];
      r
  }

  /** How the package manager reads `name:arch`: the architecture is what
      follows the last ':'. */
  function SplitArchQualified(s: string): Option<(string, string)>
  {
    match LastColon(s)
    case None => None
    case Some(i) => Some((s[..i], s[i + 1..]))
  }

  /** A qualified name splits back into the package and its architecture
      whenever the architecture has no ':' (no Debian architecture has one). */
  lemma PkgNameForArchRoundTrip(pkg: string, debianArch: string)
    requires ':' !in debianArch
    ensures SplitArchQualified(PkgNameForArch(pkg, debianArch)) == Some((pkg, debianArch))
  {
    var s := PkgNameForArch(pkg, debianArch);
  }

  /** `getCC`: the C cross-compiler of a toolchain prefix. */
  function CC(gccArch: string): (r: string)
    ensures |r| == |gccArch| + 4 && r[..|gccArch|] == gccArch && r[|gccArch|..] == "-gcc"
  {
    gccArch + "-gcc"
  }

  /** `getGCCGo`: the gccgo cross-compiler of a toolchain prefix. */
  function GCCGo(gccArch: string): (r: string)
    ensures |r| == |gccArch| + 6 && r[..|gccArch|] == gccArch && r[|gccArch|..] == "-gccgo"
  {
    gccArch + "-gccgo"
  }

  /** Each compiler name determines its toolchain prefix, and no C compiler
      name is a gccgo name, so CC and GCCGO never name the same program. */
  lemma CompilerNames(a: string, b: string)
    ensures CC(a) == CC(b) ==> a == b
    ensures GCCGo(a) == GCCGo(b) ==> a == b
    ensures CC(a) != GCCGo(b)
  {
    if CC(a) == CC(b) {
      assert |a| == |b|;
    }
    if GCCGo(a) == GCCGo(b) {
      assert |a| == |b|;
    }
    assert CC(a)[|CC(a)| - 1] == 'c' && GCCGo(b)[|GCCGo(b)| - 1] == 'o';
  }
}
